// cmd/kubeadm/app/util/initsystem/unit.go: the description of a service unit,
// its text form (the `unitTemplate` of unit.go, written out as string
// assembly with the template's whitespace trimming applied), an inverse of
// that text form, and WriteUnitToDisk.
module InitSystem {
  import opened Errors
  import opened Environment
  import opened Text

  // UnitRestartMode and its five string constants.
  datatype UnitRestartMode = No | OnFailure | OnSuccess | OnAbort | Always {
    // The string the Go constant holds, which the template prints.
    function Name(): string {
      match this
      case No => "no"
      case OnFailure => "on-failure"
      case OnSuccess => "on-success"
      case OnAbort => "on-abort"
      case Always => "always"
    }
  }

  function ParseRestartMode(s: string): (r: Option<UnitRestartMode>)
    ensures r.Some? ==> r.value.Name() == s
  {
    if s == "no" then Some(No)
    else if s == "on-failure" then Some(OnFailure)
    else if s == "on-success" then Some(OnSuccess)
    else if s == "on-abort" then Some(OnAbort)
    else if s == "always" then Some(Always)
    else None
  }

  // Each mode's name reads back as that mode, and fits on one line.
  lemma RestartModeRoundTrip(mode: UnitRestartMode)
    ensures ParseRestartMode(mode.Name()) == Some(mode)
    ensures '\n' !in mode.Name()
  {
    match mode
    case No =>
    case OnFailure =>
    case OnSuccess =>
    case OnAbort =>
    case Always =>
  }

  const MultiUserTarget := "multi-user.target"
  const DefaultUnitRestartSec: nat := 5

  datatype UnitService = UnitService(execStartCmd: seq<string>, restart: UnitRestartMode, restartSec: nat)

  datatype UnitInstall = UnitInstall(alias: string, wantedBy: string, requiredBy: string)

  datatype UnitSpec = UnitSpec(description: string, documentation: string, service: UnitService, install: UnitInstall)

  // The two characters that unit.go:87 puts after the RequiredBy line
  // (U+00C2 U+00AE), kept as the template has them.
  const RequiredByTrailer := "\U{00C2}\U{00AE}"

  // `{{range .Service.ExecStartCmd}}{{.}} {{end}}`: every token followed by one space.
  function ExecStartArgs(cmd: seq<string>): (s: string)
    ensures s == "" <==> cmd == []
    ensures cmd != [] ==> s[|s| - 1] == ' '
  {
    if cmd == [] then "" else cmd[0] + " " + ExecStartArgs(cmd[1..])
  }

  // One `<key>=<value>` line of the template, with the newline that ends it.
  function Line(key: string, value: string): string {
    key + "=" + value + "\n"
  }

  // unit.go:68-71: the text starts with an empty line, then the [Unit] section.
  function UnitSection(unit: UnitSpec): string {
    "\n[Unit]\n" + Line("Description", unit.description) + Line("Documentation", unit.documentation)
  }

  // unit.go:72-76: an empty line, then the [Service] section.
  function ServiceSection(service: UnitService): string {
    "\n[Service]\n" + Line("ExecStart", ExecStartArgs(service.execStartCmd)) +
    Line("Restart", service.restart.Name()) + Line("RestartSec", Decimal(service.restartSec))
  }

  // `{{- if .Install.<key>}}\n<key>={{.Install.<key>}}\n{{end -}}`
  function InstallLine(key: string, value: string): string {
    if value == "" then "" else "\n" + Line(key, value)
  }

  // The two characters after a RequiredBy line; nothing when there is none.
  function Trailer(requiredBy: string): string {
    if requiredBy == "" then "" else RequiredByTrailer
  }

  // unit.go:77-88: an empty line and the [Install] heading; `{{-` removes the
  // newline after the heading and `-}}` the template's final newline.
  function InstallSection(install: UnitInstall): string {
    "\n[Install]" + InstallLine("Alias", install.alias) + InstallLine("WantedBy", install.wantedBy) +
    InstallLine("RequiredBy", install.requiredBy) + Trailer(install.requiredBy)
  }

  // unitTemplate executed on a UnitSpec (unit.go:67-88, 97-99).
  function RenderUnit(unit: UnitSpec): string {
    UnitSection(unit) + ServiceSection(unit.service) + InstallSection(unit.install)
  }

  lemma PrefixOfJoin(a: string, b: string, c: string, d: string)
    ensures a + b <= a + (b + c) + d
  {
    assert a + (b + c) + d == (a + b) + (c + d);
  }

  lemma ServiceSectionStart(service: UnitService)
    ensures ServiceSection(service) == "\n[Service]\nExecStart=" + (ExecStartArgs(service.execStartCmd) + "\n" +
      Line("Restart", service.restart.Name()) + Line("RestartSec", Decimal(service.restartSec)))
  {
  }

  lemma UnitSectionText(unit: UnitSpec)
    ensures UnitSection(unit) == "\n[Unit]\nDescription=" + unit.description + "\nDocumentation=" + unit.documentation + "\n"
  {
  }

  lemma HeaderText(unit: UnitSpec)
    ensures UnitSection(unit) + "\n[Service]\nExecStart=" ==
      "\n[Unit]\nDescription=" + unit.description + "\nDocumentation=" + unit.documentation + "\n\n[Service]\nExecStart="
  {
    UnitSectionText(unit);
  }

  lemma HeaderPrefix(unit: UnitSpec)
    ensures UnitSection(unit) + "\n[Service]\nExecStart=" <= RenderUnit(unit)
  {
    var rest := ExecStartArgs(unit.service.execStartCmd) + "\n" +
      Line("Restart", unit.service.restart.Name()) + Line("RestartSec", Decimal(unit.service.restartSec));
    ServiceSectionStart(unit.service);
    PrefixOfJoin(UnitSection(unit), "\n[Service]\nExecStart=", rest, InstallSection(unit.install));
  }

  // The text begins with the [Unit] section and the [Service] heading
  // (unit.go:68-74, unit_test.go:62-68).
  lemma RenderStartsWithHeader(unit: UnitSpec)
    ensures "\n[Unit]\nDescription=" + unit.description + "\nDocumentation=" + unit.documentation +
      "\n\n[Service]\nExecStart=" <= RenderUnit(unit)
  {
    HeaderText(unit);
    HeaderPrefix(unit);
  }

  lemma EndsWithJoin(a: string, c: string)
    ensures EndsWith(a + c, c)
  {
    assert (a + c)[|a|..] == c;
  }

  lemma LineEnds(p: string, key: string, value: string)
    ensures p + Line(key, value) == (p + key + "=" + value) + "\n"
  {
  }

  lemma NewlineJoin(a: string, b: string, c: string)
    ensures a + (b + "\n") + c == (a + b) + ("\n" + c)
  {
  }

  // With no Install field set the text ends with the heading and no newline.
  lemma EmptyInstallEndsWithHeading(unit: UnitSpec)
    requires unit.install == UnitInstall("", "", "")
    ensures EndsWith(RenderUnit(unit), "\n\n[Install]")
  {
    var service := unit.service;
    var p := "\n[Service]\n" + Line("ExecStart", ExecStartArgs(service.execStartCmd)) + Line("Restart", service.restart.Name());
    var q := p + "RestartSec" + "=" + Decimal(service.restartSec);
    LineEnds(p, "RestartSec", Decimal(service.restartSec));
    assert ServiceSection(service) == q + "\n";
    assert InstallSection(unit.install) == "\n[Install]";
    NewlineJoin(UnitSection(unit), q, "\n[Install]");
    assert "\n" + "\n[Install]" == "\n\n[Install]";
    EndsWithJoin(UnitSection(unit) + q, "\n\n[Install]");
  }

  // With only WantedBy set the section is exactly one line (unit_test.go:72-74).
  lemma OnlyWantedByInstall(unit: UnitSpec)
    requires unit.install.alias == "" && unit.install.requiredBy == "" && unit.install.wantedBy != ""
    ensures EndsWith(RenderUnit(unit), "[Install]\nWantedBy=" + unit.install.wantedBy + "\n")
  {
    var tail := "[Install]\nWantedBy=" + unit.install.wantedBy + "\n";
    assert InstallSection(unit.install) == "\n" + tail;
    SuffixOfJoin(UnitSection(unit) + ServiceSection(unit.service), "\n", tail);
  }

  lemma SuffixOfJoin(a: string, b: string, c: string)
    ensures EndsWith(a + (b + c), c)
  {
    assert a + (b + c) == (a + b) + c;
    EndsWithJoin(a + b, c);
  }

  lemma RequiredByText(value: string)
    requires value != ""
    ensures InstallLine("RequiredBy", value) + Trailer(value) == "\nRequiredBy=" + value + "\n" + RequiredByTrailer
  {
  }

  // A non-empty RequiredBy line is followed by the two stray characters and
  // nothing else.
  lemma RequiredByEndsWithTrailer(unit: UnitSpec)
    requires unit.install.requiredBy != ""
    ensures EndsWith(RenderUnit(unit), "\nRequiredBy=" + unit.install.requiredBy + "\n" + RequiredByTrailer)
  {
    var install := unit.install;
    var head := "\n[Install]" + InstallLine("Alias", install.alias) + InstallLine("WantedBy", install.wantedBy);
    var tail := InstallLine("RequiredBy", install.requiredBy) + Trailer(install.requiredBy);
    assert InstallSection(install) == head + tail;
    SuffixOfJoin(UnitSection(unit) + ServiceSection(unit.service), head, tail);
    RequiredByText(install.requiredBy);
  }

  // ---------------------------------------------------------------------------
  // Reading a rendered unit back.  For a unit whose values hold no line break
  // (and whose command tokens hold no space), the text determines the unit:
  // ParseUnit(RenderUnit(u)) == Some(u).

  predicate WellFormed(unit: UnitSpec) {
    && '\n' !in unit.description
    && '\n' !in unit.documentation
    && (forall t :: t in unit.service.execStartCmd ==> '\n' !in t && ' ' !in t)
    && '\n' !in unit.install.alias
    && '\n' !in unit.install.wantedBy
    && '\n' !in unit.install.requiredBy
  }

  // A parsed value and the text after it.
  datatype Parsed<T> = Parsed(value: T, rest: string)

  // The value of a `<key>=<value>` line and the text after the line.
  function ParseLine(s: string, key: string): Option<Chunk> {
    var r :- StripPrefix(s, key + "=");
    TakeUntil(r, '\n')
  }

  // The tokens of an ExecStart value, each terminated by a space.
  function ParseArgs(s: string): Option<seq<string>>
    decreases |s|
  {
    if s == [] then Some([])
    else
      var token :- TakeUntil(s, ' ');
      var tail :- ParseArgs(token.rest);
      Some([token.piece] + tail)
  }

  function ParseUnitSection(s: string): Option<Parsed<(string, string)>> {
    var s0 :- StripPrefix(s, "\n[Unit]\n");
    var description :- ParseLine(s0, "Description");
    var documentation :- ParseLine(description.rest, "Documentation");
    Some(Parsed((description.piece, documentation.piece), documentation.rest))
  }

  function ParseServiceSection(s: string): Option<Parsed<UnitService>> {
    var s0 :- StripPrefix(s, "\n[Service]\n");
    var execStart :- ParseLine(s0, "ExecStart");
    var restart :- ParseLine(execStart.rest, "Restart");
    var restartSec :- ParseLine(restart.rest, "RestartSec");
    var cmd :- ParseArgs(execStart.piece);
    var mode :- ParseRestartMode(restart.piece);
    var seconds :- ParseDecimal(restartSec.piece);
    Some(Parsed(UnitService(cmd, mode, seconds), restartSec.rest))
  }

  // An optional "\n<key>=<value>\n" line: its value and what follows it, or
  // ("", s) when s does not start with the key.
  function ParseInstallLine(s: string, key: string): Option<Chunk> {
    match StripPrefix(s, "\n" + key + "=")
    case None => Some(Chunk("", s))
    case Some(r) => TakeUntil(r, '\n')
  }

  // The [Install] section, which runs to the end of the text.
  function ParseInstallSection(s: string): Option<UnitInstall> {
    var s0 :- StripPrefix(s, "\n[Install]");
    var alias :- ParseInstallLine(s0, "Alias");
    var wantedBy :- ParseInstallLine(alias.rest, "WantedBy");
    var requiredBy :- ParseInstallLine(wantedBy.rest, "RequiredBy");
    if requiredBy.rest == Trailer(requiredBy.piece) then Some(UnitInstall(alias.piece, wantedBy.piece, requiredBy.piece))
    else None
  }

  function ParseUnit(text: string): Option<UnitSpec> {
    var unitPart :- ParseUnitSection(text);
    var service :- ParseServiceSection(unitPart.rest);
    var install :- ParseInstallSection(service.rest);
    Some(UnitSpec(unitPart.value.0, unitPart.value.1, service.value, install))
  }

  lemma {:induction false} ExecStartArgsRoundTrip(cmd: seq<string>)
    requires forall t :: t in cmd ==> ' ' !in t
    ensures ParseArgs(ExecStartArgs(cmd)) == Some(cmd)
  {
    if cmd != [] {
      var rest := ExecStartArgs(cmd[1..]);
      TakeUntilJoin(cmd[0], ' ', rest);
      ExecStartArgsRoundTrip(cmd[1..]);
      assert [cmd[0]] + cmd[1..] == cmd;
    }
  }

  lemma {:induction false} ExecStartArgsOneLine(cmd: seq<string>)
    requires forall t :: t in cmd ==> '\n' !in t
    ensures '\n' !in ExecStartArgs(cmd)
  {
    if cmd != [] {
      ExecStartArgsOneLine(cmd[1..]);
      assert ExecStartArgs(cmd) == cmd[0] + " " + ExecStartArgs(cmd[1..]);
    }
  }

  lemma DecimalOneLine(n: nat)
    ensures '\n' !in Decimal(n)
  {
  }

  lemma LineJoin(key: string, value: string, rest: string)
    requires '\n' !in value
    ensures ParseLine(Line(key, value) + rest, key) == Some(Chunk(value, rest))
  {
    assert Line(key, value) + rest == (key + "=") + (value + "\n" + rest);
    StripPrefixJoin(key + "=", value + "\n" + rest);
    TakeUntilJoin(value, '\n', rest);
  }

  lemma UnitSectionRoundTrip(unit: UnitSpec, rest: string)
    requires '\n' !in unit.description && '\n' !in unit.documentation
    ensures ParseUnitSection(UnitSection(unit) + rest) == Some(Parsed((unit.description, unit.documentation), rest))
  {
    var docLine := Line("Documentation", unit.documentation);
    assert UnitSection(unit) + rest == "\n[Unit]\n" + (Line("Description", unit.description) + (docLine + rest));
    StripPrefixJoin("\n[Unit]\n", Line("Description", unit.description) + (docLine + rest));
    LineJoin("Description", unit.description, docLine + rest);
    LineJoin("Documentation", unit.documentation, rest);
  }

  lemma Assoc4(a: string, b: string, c: string, d: string, e: string)
    ensures a + b + c + d + e == a + (b + (c + (d + e)))
  {
  }

  lemma ServiceSectionRoundTrip(service: UnitService, rest: string)
    requires forall t :: t in service.execStartCmd ==> '\n' !in t && ' ' !in t
    ensures ParseServiceSection(ServiceSection(service) + rest) == Some(Parsed(service, rest))
  {
    var args := ExecStartArgs(service.execStartCmd);
    var restartLine := Line("Restart", service.restart.Name());
    var secLine := Line("RestartSec", Decimal(service.restartSec));
    Assoc4("\n[Service]\n", Line("ExecStart", args), restartLine, secLine, rest);
    StripPrefixJoin("\n[Service]\n", Line("ExecStart", args) + (restartLine + (secLine + rest)));
    ExecStartArgsOneLine(service.execStartCmd);
    LineJoin("ExecStart", args, restartLine + (secLine + rest));
    RestartModeRoundTrip(service.restart);
    LineJoin("Restart", service.restart.Name(), secLine + rest);
    DecimalOneLine(service.restartSec);
    LineJoin("RestartSec", Decimal(service.restartSec), rest);
    ExecStartArgsRoundTrip(service.execStartCmd);
    DecimalRoundTrip(service.restartSec);
  }

  lemma InstallLineJoin(key: string, value: string, rest: string)
    requires '\n' !in value
    requires value == "" ==> !("\n" + key + "=" <= rest)
    ensures ParseInstallLine(InstallLine(key, value) + rest, key) == Some(Chunk(value, rest))
  {
    if value != "" {
      assert InstallLine(key, value) + rest == ("\n" + key + "=") + (value + "\n" + rest);
      StripPrefixJoin("\n" + key + "=", value + "\n" + rest);
      TakeUntilJoin(value, '\n', rest);
    } else {
      assert InstallLine(key, value) + rest == rest;
    }
  }

  // An optional line for one key never starts like the line for another key.
  lemma OtherInstallKey(key: string, other: string, value: string, rest: string)
    requires key != "" && other != "" && key[0] != other[0]
    requires value != ""
    ensures !("\n" + key + "=" <= InstallLine(other, value) + rest)
  {
    var s := InstallLine(other, value) + rest;
    assert s == "\n" + (other + ("=" + value + "\n" + rest));
    assert s[1] == other[0];
    assert ("\n" + key + "=")[1] == key[0];
  }

  lemma InstallSectionRoundTrip(install: UnitInstall)
    requires '\n' !in install.alias && '\n' !in install.wantedBy && '\n' !in install.requiredBy
    ensures ParseInstallSection(InstallSection(install)) == Some(install)
  {
    var alias := InstallLine("Alias", install.alias);
    var wanted := InstallLine("WantedBy", install.wantedBy);
    var required := InstallLine("RequiredBy", install.requiredBy);
    var trailer := Trailer(install.requiredBy);
    Assoc4("\n[Install]", alias, wanted, required, trailer);
    StripPrefixJoin("\n[Install]", alias + (wanted + (required + trailer)));
    if install.alias == "" {
      if install.wantedBy != "" {
        OtherInstallKey("Alias", "WantedBy", install.wantedBy, required + trailer);
      } else if install.requiredBy != "" {
        assert wanted + (required + trailer) == required + trailer;
        OtherInstallKey("Alias", "RequiredBy", install.requiredBy, trailer);
      } else {
        assert wanted + (required + trailer) == "";
      }
    }
    InstallLineJoin("Alias", install.alias, wanted + (required + trailer));
    if install.wantedBy == "" {
      if install.requiredBy != "" {
        OtherInstallKey("WantedBy", "RequiredBy", install.requiredBy, trailer);
      } else {
        assert required + trailer == "";
      }
    }
    InstallLineJoin("WantedBy", install.wantedBy, required + trailer);
    InstallLineJoin("RequiredBy", install.requiredBy, trailer);
  }

  // The text of a well-formed unit determines the unit.
  lemma RenderUnitRoundTrip(unit: UnitSpec)
    requires WellFormed(unit)
    ensures ParseUnit(RenderUnit(unit)) == Some(unit)
  {
    var install := InstallSection(unit.install);
    assert RenderUnit(unit) == UnitSection(unit) + (ServiceSection(unit.service) + install);
    UnitSectionRoundTrip(unit, ServiceSection(unit.service) + install);
    ServiceSectionRoundTrip(unit.service, install);
    InstallSectionRoundTrip(unit.install);
  }

  // Different well-formed units never render to the same text.
  lemma RenderUnitInjective(a: UnitSpec, b: UnitSpec)
    requires WellFormed(a) && WellFormed(b)
    requires RenderUnit(a) == RenderUnit(b)
    ensures a == b
  {
    RenderUnitRoundTrip(a);
    RenderUnitRoundTrip(b);
  }

  // ---------------------------------------------------------------------------
  // WriteUnitToDisk (unit.go:92-111).  `unitPath` is
  // kubeadmconstants.GetSystemUnitFilepath(component, unitsDir).

  // What WriteUnitToDisk does to the host.
  function WriteUnitEffect(w: World, unitPath: (string, string) -> string, component: string, unitsDir: string, unit: UnitSpec)
    : (r: (Option<Error>, World))
    ensures r.1.env == w.env
    ensures r.0.None? <==> w.CanMkdir(unitsDir) && w.CanWrite(unitPath(component, unitsDir))
    // success: the rendered text replaces the file, nothing else changes, the directory exists
    ensures r.0.None? ==> r.1.files == w.files[unitPath(component, unitsDir) := RenderUnit(unit)] && unitsDir in r.1.dirs
    // the directory is made first, and the file is written only if that worked
    ensures r.1.calls == w.calls + [MkdirAll(unitsDir)] +
      (if w.CanMkdir(unitsDir) then [WriteFile(unitPath(component, unitsDir), RenderUnit(unit))] else [])
    // the directory cannot be made: no file is written
    ensures !w.CanMkdir(unitsDir) ==>
      && r.0 == Some(DirectoryNotCreated(unitsDir, PathError("mkdir", unitsDir)))
      && r.1 == w.Log(MkdirAll(unitsDir))
    // the file cannot be written: the files stay as they were
    ensures w.CanMkdir(unitsDir) && !w.CanWrite(unitPath(component, unitsDir)) ==>
      && r.0 == Some(UnitFileNotWritten(component, unitPath(component, unitsDir), PathError("open", unitPath(component, unitsDir))))
      && r.1.files == w.files
    ensures r.1.dirs == w.dirs + ({unitsDir} - w.env.denied)
  {
    var (mkdirErr, w1) := w.MkdirAll(unitsDir);
    if mkdirErr.Some? then (Some(DirectoryNotCreated(unitsDir, mkdirErr.value)), w1)
    else
      var filename := unitPath(component, unitsDir);
      var (writeErr, w2) := w1.WriteFile(filename, RenderUnit(unit));
      if writeErr.Some? then (Some(UnitFileNotWritten(component, filename, writeErr.value)), w2)
      else (None, w2)
  }

  method WriteUnitToDisk(host: Host, unitPath: (string, string) -> string, componentName: string, unitsDir: string, unit: UnitSpec)
    returns (err: Option<Error>)
    modifies host
    ensures (err, host.State()) == WriteUnitEffect(old(host.State()), unitPath, componentName, unitsDir, unit)
  {
    var mkdirErr := host.MkdirAll(unitsDir);
    if mkdirErr.Some? {
      return Some(DirectoryNotCreated(unitsDir, mkdirErr.value));
    }
    var text := RenderUnit(unit);
    var filename := unitPath(componentName, unitsDir);
    var writeErr := host.WriteFile(filename, text);
    if writeErr.Some? {
      return Some(UnitFileNotWritten(componentName, filename, writeErr.value));
    }
    return None;
  }

  // Writing a unit and reading its file back gives the rendered text, and
  // that text gives back the unit.
  lemma WrittenUnitReadsBack(w: World, unitPath: (string, string) -> string, component: string, unitsDir: string, unit: UnitSpec)
    requires WriteUnitEffect(w, unitPath, component, unitsDir, unit).0.None?
    ensures var after := WriteUnitEffect(w, unitPath, component, unitsDir, unit).1;
      after.ReadFile(unitPath(component, unitsDir)).0 == Ok(RenderUnit(unit))
    ensures WellFormed(unit) ==>
      var after := WriteUnitEffect(w, unitPath, component, unitsDir, unit).1;
      ParseUnit(after.ReadFile(unitPath(component, unitsDir)).0.value) == Some(unit)
  {
    if WellFormed(unit) {
      RenderUnitRoundTrip(unit);
    }
  }
}
