/**
 From a sign section to a signed layer: the argument list of the signing job (internal/sign/job/signer.go), its way
 through Go's flag package into the signing tool (cmd/signimage/signimage.go), and the files the tool then signs.
 */
module SignArgs {
  import opened Base
  import opened Text
  import opened Paths
  import opened Registry
  import opened Overlay
  import opened KernelMapper
  import opened SignJobs
  import opened SignImage

  // ---- The flag package --------------------------------------------------------------------------------

  const UNSIGNED_IMAGE := "unsignedimage"
  const SIGNED_IMAGE := "signedimage"
  const FILES_TO_SIGN := "filestosign"
  const KEY := "key"
  const CERT := "cert"
  const SECRET_DIR := "secretdir"
  const NO_PUSH := "no-push"
  const INSECURE_PULL := "insecure-pull"
  const SKIP_TLS_VERIFY_PULL := "skip-tls-verify-pull"
  const INSECURE := "insecure"
  const SKIP_TLS_VERIFY := "skip-tls-verify"

  /** The flags a program has declared. */
  datatype FlagSet = FlagSet(strings: set<string>, bools: set<string>)

  const DECLARED := FlagSet(
    {UNSIGNED_IMAGE, SIGNED_IMAGE, FILES_TO_SIGN, KEY, CERT, SECRET_DIR},
    {NO_PUSH, INSECURE_PULL, SKIP_TLS_VERIFY_PULL, INSECURE, SKIP_TLS_VERIFY})

  /** The values of the string flags that were given, and the boolean flags that are on. */
  datatype Settings = Settings(values: map<string, string>, switches: set<string>)

  const DEFAULTS := Settings(map[], {})

  datatype Head = Positional | BadSyntax | Flag(name: string, value: Option<string>)

  /** One or two dashes, then a name, then perhaps "=" and a value. */
  function HeadOf(arg: string): Head {
    if |arg| < 2 || arg[0] != '-' || arg == "--" then Positional
    else
      var name := if arg[1] == '-' then arg[2..] else arg[1..];
      if name[0] == '-' || name[0] == '=' then BadSyntax
      else
        var parts := Split(name, '=');
        if |parts| == 1 then Flag(name, None) else Flag(parts[0], Some(Join(parts[1..], '=')))
  }

  function ParseBool(s: string): Option<bool> {
    if s in {"1", "t", "T", "true", "TRUE", "True"} then Some(true)
    else if s in {"0", "f", "F", "false", "FALSE", "False"} then Some(false)
    else None
  }

  function WithSwitch(s: Settings, name: string, on: bool): Settings {
    s.(switches := if on then s.switches + {name} else s.switches - {name})
  }

  function WithValue(s: Settings, name: string, value: string): Settings {
    s.(values := s.values[name := value])
  }

  datatype ParseError = HelpAsked | Invalid

  /** flag.Parse from settings s on. */
  function ParseFrom(flags: FlagSet, args: seq<string>, s: Settings): Result<Settings, ParseError>
    decreases |args|
  {
    if args == [] then Success(s)
    else
      match HeadOf(args[0])
      case Positional => Success(s)
      case BadSyntax => Failure(Invalid)
      case Flag(name, value) =>
        if name in flags.bools then
          var on := if value.None? then Some(true) else ParseBool(value.value);
          if on.None? then Failure(Invalid) else ParseFrom(flags, args[1..], WithSwitch(s, name, on.value))
        else if name in flags.strings then
          if value.Some? then ParseFrom(flags, args[1..], WithValue(s, name, value.value))
          else if |args| == 1 then Failure(Invalid)
          else ParseFrom(flags, args[2..], WithValue(s, name, args[1]))
        else Failure(if name in {"h", "help"} then HelpAsked else Invalid)
  }

  predicate FlagName(name: string) {
    name != "" && name[0] != '-' && '=' !in name
  }

  lemma HeadOfFlag(name: string)
    requires FlagName(name)
    ensures HeadOf("-" + name) == HeadOf("--" + name) == Flag(name, None)
  {
    SplitOfJoin([name], '=');
    assert ("-" + name)[1..] == name && ("--" + name)[2..] == name;
  }

  /** The form that carries its value; only the first "=" separates. */
  lemma HeadOfValue(name: string, value: string)
    requires FlagName(name)
    ensures HeadOf("-" + name + "=" + value) == Flag(name, Some(value))
  {
    SplitPrefix(name, "=" + value, '=');
    JoinOfSplit(value, '=');
    assert ("-" + name + "=" + value)[1..] == name + ("=" + value);
    assert ("=" + value)[1..] == value;
    var parts := Split("=" + value, '=');
    assert parts == [""] + Split(value, '=') && name + parts[0] == name && parts[1..] == Split(value, '=');
  }

  /** The arguments so far set these settings, whatever comes after them. */
  ghost predicate Gives(flags: FlagSet, args: seq<string>, s: Settings) {
    forall rest :: ParseFrom(flags, args + rest, DEFAULTS) == ParseFrom(flags, rest, s)
  }

  lemma NoArgumentsGiveDefaults(flags: FlagSet)
    ensures Gives(flags, [], DEFAULTS)
  {
    assert forall rest: seq<string> :: [] + rest == rest;
  }

  lemma AddString(flags: FlagSet, args: seq<string>, s: Settings, name: string, value: string)
    requires Gives(flags, args, s) && FlagName(name) && name in flags.strings && name !in flags.bools
    ensures Gives(flags, args + ["-" + name, value], WithValue(s, name, value))
  {
    HeadOfFlag(name);
    var pair := ["-" + name, value];
    forall rest
      ensures ParseFrom(flags, args + pair + rest, DEFAULTS) == ParseFrom(flags, rest, WithValue(s, name, value))
    {
      assert args + pair + rest == args + (pair + rest);
      assert (pair + rest)[2..] == rest;
    }
  }

  lemma AddSwitch(flags: FlagSet, args: seq<string>, s: Settings, dashes: string, name: string)
    requires Gives(flags, args, s) && FlagName(name) && name in flags.bools && (dashes == "-" || dashes == "--")
    ensures Gives(flags, args + [dashes + name], WithSwitch(s, name, true))
  {
    HeadOfFlag(name);
    var one := [dashes + name];
    forall rest
      ensures ParseFrom(flags, args + one + rest, DEFAULTS) == ParseFrom(flags, rest, WithSwitch(s, name, true))
    {
      assert args + one + rest == args + (one + rest);
      assert (one + rest)[1..] == rest;
    }
  }

  // ---- The argument list of a signing job --------------------------------------------------------------

  function WithTLS(s: Settings, tls: TLS, insecure: string, skipVerify: string): Settings {
    var s1 := if tls.insecure then WithSwitch(s, insecure, true) else s;
    if tls.skipVerify then WithSwitch(s1, skipVerify, true) else s1
  }

  function PushSettings(t: Template): Settings {
    if t.push then WithTLS(WithValue(DEFAULTS, SIGNED_IMAGE, t.signedImage), t.pushTLS, INSECURE, SKIP_TLS_VERIFY)
    else WithSwitch(DEFAULTS, NO_PUSH, true)
  }

  const KEY_FILE := "/signingkey/key.priv"
  const CERT_FILE := "/signingcert/public.der"
  const CONFIG_DIR := "/docker_config/"

  function SourceSettings(t: Template): Settings {
    WithValue(WithValue(WithValue(PushSettings(t), UNSIGNED_IMAGE, t.unsignedImage), KEY, KEY_FILE), CERT, CERT_FILE)
  }

  /** What the tool should find set for a template. */
  function SettingsOf(t: Template): Settings {
    var s := SourceSettings(t);
    var s1 := if t.filesToSign != [] then WithValue(s, FILES_TO_SIGN, FilesArgument(t)) else s;
    WithValue(WithTLS(s1, t.pullTLS, INSECURE_PULL, SKIP_TLS_VERIFY_PULL), SECRET_DIR, CONFIG_DIR)
  }

  lemma DeclaredNames(name: string)
    requires name in DECLARED.strings + DECLARED.bools
    ensures FlagName(name) && (name in DECLARED.strings <==> name !in DECLARED.bools)
  {
  }

  /** An argument list under construction and, for the proof, what the tool's flag package will read from it. */
  class Arguments {
    var args: seq<string>
    ghost var settings: Settings

    ghost predicate Valid()
      reads this
    {
      Gives(DECLARED, args, settings)
    }

    constructor ()
      ensures Valid() && settings == DEFAULTS
    {
      args, settings := [], DEFAULTS;
      NoArgumentsGiveDefaults(DECLARED);
    }

    method AppendValue(name: string, value: string)
      requires Valid() && name in DECLARED.strings
      modifies this
      ensures Valid() && settings == WithValue(old(settings), name, value)
      ensures args == old(args) + ["-" + name, value]
    {
      DeclaredNames(name);
      AddString(DECLARED, args, settings, name, value);
      args, settings := args + ["-" + name, value], WithValue(settings, name, value);
    }

    method AppendSwitch(dashes: string, name: string)
      requires Valid() && name in DECLARED.bools && (dashes == "-" || dashes == "--")
      modifies this
      ensures Valid() && settings == WithSwitch(old(settings), name, true)
      ensures args == old(args) + [dashes + name]
    {
      DeclaredNames(name);
      AddSwitch(DECLARED, args, settings, dashes, name);
      args, settings := args + [dashes + name], WithSwitch(settings, name, true);
    }

    method AppendTLS(tls: TLS, insecure: string, skipVerify: string)
      requires Valid() && insecure in DECLARED.bools && skipVerify in DECLARED.bools
      modifies this
      ensures Valid() && settings == WithTLS(old(settings), tls, insecure, skipVerify)
    {
      if tls.insecure {
        AppendSwitch("--", insecure);
      }
      if tls.skipVerify {
        AppendSwitch("--", skipVerify);
      }
    }
  }

  /** The first arguments: where to push, if anywhere. */
  method PushArgs(t: Template) returns (list: Arguments)
    ensures fresh(list) && list.Valid() && list.settings == PushSettings(t)
  {
    list := new Arguments();
    if t.push {
      list.AppendValue(SIGNED_IMAGE, t.signedImage);
      list.AppendTLS(t.pushTLS, INSECURE, SKIP_TLS_VERIFY);
    } else {
      list.AppendSwitch("-", NO_PUSH);
    }
  }

  method SourceArgs(t: Template) returns (list: Arguments)
    ensures fresh(list) && list.Valid() && list.settings == SourceSettings(t)
  {
    list := PushArgs(t);
    list.AppendValue(UNSIGNED_IMAGE, t.unsignedImage);
    list.AppendValue(KEY, KEY_FILE);
    list.AppendValue(CERT, CERT_FILE);
  }

  /** The argument construction of MakeJobTemplate: the tool reads the template back out of the arguments. */
  method MakeArgs(t: Template) returns (args: seq<string>)
    ensures ParseFrom(DECLARED, args, DEFAULTS) == Success(SettingsOf(t))
  {
    var list := SourceArgs(t);
    if |t.filesToSign| > 0 {
      list.AppendValue(FILES_TO_SIGN, Join(t.filesToSign, ':'));
    }
    list.AppendTLS(t.pullTLS, INSECURE_PULL, SKIP_TLS_VERIFY_PULL);
    list.AppendValue(SECRET_DIR, CONFIG_DIR);
    assert list.args + [] == list.args;
    return list.args;
  }

  // ---- The tool --------------------------------------------------------------------------------------------

  function ValueOf(s: Settings, name: string): string {
    if name in s.values then s.values[name] else ""
  }

  /** An argument without a default is missing. */
  predicate Incomplete(s: Settings) {
    ValueOf(s, UNSIGNED_IMAGE) == "" || ValueOf(s, KEY) == "" || ValueOf(s, CERT) == "" || ValueOf(s, SECRET_DIR) == ""
  }

  /** Where an image is pulled from or pushed to, and how. */
  datatype Reference = Reference(image: string, tls: TLS)

  function SourceOf(s: Settings): Reference {
    Reference(ValueOf(s, UNSIGNED_IMAGE), TLS(INSECURE_PULL in s.switches, SKIP_TLS_VERIFY_PULL in s.switches))
  }

  /** None with -no-push; the name of the signed image has a default. */
  function TargetOf(s: Settings): Option<Reference> {
    var (named, tls) := (ValueOf(s, SIGNED_IMAGE), TLS(INSECURE in s.switches, SKIP_TLS_VERIFY in s.switches));
    if NO_PUSH in s.switches then None
    else Some(Reference(if named != "" then named else ValueOf(s, UNSIGNED_IMAGE) + "signed", tls))
  }

  /** The tool's main from its arguments to the append, and where it then pushes the new image. */
  method RunTool(args: seq<string>, pull: Reference -> Option<Image>, m: Machine)
    returns (outcome: Outcome, target: Option<Reference>)
    ensures match ParseFrom(DECLARED, args, DEFAULTS)
      case Failure(e) => outcome == (if e == HelpAsked then UsageExit else Died(2)) && target == None
      case Success(s) =>
        if Incomplete(s) then outcome == UsageExit && target == None
        else
          && Produces(ValueOf(s, FILES_TO_SIGN), pull(SourceOf(s)), m, outcome)
          && target == if outcome.Appended? then TargetOf(s) else None
  {
    var parsed := ParseFrom(DECLARED, args, DEFAULTS);
    if parsed.Failure? {
      return if parsed.error == HelpAsked then UsageExit else Died(2), None;
    }
    if Incomplete(parsed.value) {
      return UsageExit, None;
    }
    outcome := SignAndAppend(ValueOf(parsed.value, FILES_TO_SIGN), pull(SourceOf(parsed.value)), m);
    target := if outcome.Appended? then TargetOf(parsed.value) else None;
  }

  /** The four arguments the tool does not go on without; the list of files is checked with them. */
  lemma IncompleteMeans(s: Settings)
    ensures Incomplete(s) <==>
      exists name :: name in {"unsignedimage", "key", "cert", "secretdir"} &&
        (name !in s.values || s.values[name] == "")
  {
    assert Incomplete(s) <==>
      ValueOf(s, "unsignedimage") == "" || ValueOf(s, "key") == "" || ValueOf(s, "cert") == "" ||
        ValueOf(s, "secretdir") == "";
  }

  lemma SourceHoldsTemplate(t: Template)
    ensures ValueOf(SourceSettings(t), UNSIGNED_IMAGE) == t.unsignedImage
    ensures ValueOf(SourceSettings(t), KEY) == KEY_FILE && ValueOf(SourceSettings(t), CERT) == CERT_FILE
    ensures t.push ==> ValueOf(SourceSettings(t), SIGNED_IMAGE) == t.signedImage
    ensures ValueOf(SourceSettings(t), FILES_TO_SIGN) == ""
  {
  }

  lemma SettingsHoldTemplate(t: Template)
    ensures t.unsignedImage != "" ==> !Incomplete(SettingsOf(t))
    ensures ValueOf(SettingsOf(t), FILES_TO_SIGN) == FilesArgument(t)
    ensures ValueOf(SettingsOf(t), UNSIGNED_IMAGE) == t.unsignedImage
    ensures t.push ==> ValueOf(SettingsOf(t), SIGNED_IMAGE) == t.signedImage
  {
    SourceHoldsTemplate(t);
    hide SourceSettings;
  }

  lemma SwitchesHoldTemplate(t: Template)
    ensures var on := SettingsOf(t).switches;
      && (NO_PUSH in on <==> !t.push)
      && (INSECURE in on <==> t.push && t.pushTLS.insecure)
      && (SKIP_TLS_VERIFY in on <==> t.push && t.pushTLS.skipVerify)
      && (INSECURE_PULL in on <==> t.pullTLS.insecure)
      && (SKIP_TLS_VERIFY_PULL in on <==> t.pullTLS.skipVerify)
  {
  }

  /** The image a job is to sign: the one that was built, if there is one, else the configured one. */
  function Source(sign: Sign, imageToSign: string): string {
    if imageToSign != "" then imageToSign else sign.unsignedImage
  }

  /** What the tool must read for this signing data, flag by flag. */
  ghost predicate Tells(mld: ModuleLoaderData, sign: Sign, imageToSign: string, pushImage: bool, s: Settings) {
    && TellsValues(mld, sign, imageToSign, pushImage, s.values)
    && ("no-push" in s.switches <==> !pushImage)
    && ("insecure" in s.switches <==> pushImage && mld.registryTLS.insecure)
    && ("skip-tls-verify" in s.switches <==> pushImage && mld.registryTLS.skipVerify)
    && ("insecure-pull" in s.switches <==> sign.unsignedTLS.insecure)
    && ("skip-tls-verify-pull" in s.switches <==> sign.unsignedTLS.skipVerify)
  }

  ghost predicate TellsValues(mld: ModuleLoaderData, sign: Sign, imageToSign: string, pushImage: bool,
                              values: map<string, string>)
  {
    && Gets(values, "unsignedimage", true, Source(sign, imageToSign))
    && Gets(values, "signedimage", pushImage, mld.containerImage)
    && Gets(values, "filestosign", sign.filesToSign != [], Join(sign.filesToSign, ':'))
    && Gets(values, "key", true, KEY_FILE) && Gets(values, "cert", true, CERT_FILE)
    && Gets(values, "secretdir", true, CONFIG_DIR)
  }

  predicate Gets(values: map<string, string>, name: string, given: bool, value: string) {
    (name in values <==> given) && (given ==> values[name] == value)
  }

  lemma TLSLeavesValues(s: Settings, tls: TLS, insecure: string, skipVerify: string)
    ensures WithTLS(s, tls, insecure, skipVerify).values == s.values
  {
  }

  lemma TemplateTells(mld: ModuleLoaderData, imageToSign: string, pushImage: bool, secrets: string)
    requires mld.sign.Some? && MakeJobTemplate(mld, imageToSign, pushImage, secrets).Some?
    ensures var t := MakeJobTemplate(mld, imageToSign, pushImage, secrets).value;
      Tells(mld, mld.sign.value, imageToSign, pushImage, SettingsOf(t))
  {
    var t := MakeJobTemplate(mld, imageToSign, pushImage, secrets).value;
    SwitchesHoldTemplate(t);
    TLSLeavesValues(WithValue(DEFAULTS, SIGNED_IMAGE, t.signedImage), t.pushTLS, INSECURE, SKIP_TLS_VERIFY);
    var s := SourceSettings(t);
    TLSLeavesValues(if t.filesToSign != [] then WithValue(s, FILES_TO_SIGN, FilesArgument(t)) else s,
                    t.pullTLS, INSECURE_PULL, SKIP_TLS_VERIFY_PULL);
    hide WithTLS, WithSwitch, Join;
  }

  /** From the signing data to the arguments: there is nothing to sign, or the tool reads what the data says. */
  method JobArgs(mld: ModuleLoaderData, imageToSign: string, pushImage: bool, secrets: string)
    returns (args: Option<seq<string>>)
    requires mld.sign.Some?
    ensures args.None? <==> imageToSign == "" && mld.sign.value.unsignedImage == ""
    ensures args.Some? ==>
      exists s :: ParseFrom(DECLARED, args.value, DEFAULTS) == Success(s)
               && Tells(mld, mld.sign.value, imageToSign, pushImage, s)
  {
    var template := MakeJobTemplate(mld, imageToSign, pushImage, secrets);
    if template.None? {
      return None;
    }
    TemplateTells(mld, imageToSign, pushImage, secrets);
    hide SettingsOf, Tells;
    var list := MakeArgs(template.value);
    return Some(list);
  }

  /** What such settings make the tool work on and push to. */
  lemma TellsWhatToSign(mld: ModuleLoaderData, sign: Sign, imageToSign: string, pushImage: bool, s: Settings)
    requires Tells(mld, sign, imageToSign, pushImage, s) && Source(sign, imageToSign) != ""
    ensures !Incomplete(s) && ValueOf(s, FILES_TO_SIGN) == Join(sign.filesToSign, ':')
    ensures SourceOf(s) == Reference(Source(sign, imageToSign), sign.unsignedTLS)
    ensures TargetOf(s) == if pushImage then Some(PushedTo(mld, sign, imageToSign)) else None
  {
  }

  /** Where a job that pushes puts the signed image. */
  function PushedTo(mld: ModuleLoaderData, sign: Sign, imageToSign: string): Reference {
    Reference(if mld.containerImage != "" then mld.containerImage else Source(sign, imageToSign) + "signed",
              mld.registryTLS)
  }

  /**
   A signing job from end to end: it signs the built image, or the configured one if none was built, and pushes the
   result under the name that is deployed.
   */
  method RunJob(mld: ModuleLoaderData, imageToSign: string, pushImage: bool, secrets: string,
                pull: Reference -> Option<Image>, m: Machine)
    returns (outcome: Option<Outcome>, target: Option<Reference>)
    requires mld.sign.Some?
    ensures var sign := mld.sign.value;
      var source := if imageToSign != "" then imageToSign else sign.unsignedImage;
      && (outcome.None? <==> source == "")
      && (outcome.None? ==> target == None)
      && (outcome.Some? ==>
          && Produces(Join(sign.filesToSign, ':'), pull(Reference(source, sign.unsignedTLS)), m, outcome.value)
          && (target.Some? <==> pushImage && outcome.value.Appended?)
          && (target.Some? ==> target.value.tls == mld.registryTLS)
          && (target.Some? && mld.containerImage != "" ==> target.value.image == mld.containerImage)
          && (target.Some? && mld.containerImage == "" ==> target.value.image == source + "signed"))
  {
    var args := JobArgs(mld, imageToSign, pushImage, secrets);
    if args.None? {
      return None, None;
    }
    ghost var s :| ParseFrom(DECLARED, args.value, DEFAULTS) == Success(s)
                && Tells(mld, mld.sign.value, imageToSign, pushImage, s);
    TellsWhatToSign(mld, mld.sign.value, imageToSign, pushImage, s);
    hide Tells, Incomplete, SourceOf, TargetOf, ParseFrom, Produces;
    var ran, to := RunTool(args.value, pull, m);
    return Some(ran), to;
  }

  // ---- What becomes of the list of files -------------------------------------------------------------------

  /** The merged list is the module's files followed by the mapping's, each substituted. */
  lemma MergedFiles(libs: Libraries, moduleSign: Option<Sign>, mappingSign: Option<Sign>, kernel: string)
    requires (moduleSign.Some? || mappingSign.Some?) && RelevantSign(libs, moduleSign, mappingSign, kernel).Success?
    ensures Substituted(libs, kernel, FilesOf(moduleSign) + FilesOf(mappingSign),
                        RelevantSign(libs, moduleSign, mappingSign, kernel).value.filesToSign)
  {
    assert FilesOf(moduleSign) + FilesOf(mappingSign) == MergeSign(moduleSign, mappingSign).filesToSign;
  }

  /** The list arrives as it was sent exactly when it is not empty and no path contains the separator. */
  lemma RequestedIsList(files: seq<string>)
    ensures Requested(Join(files, ':')) == (set f | f in files) <==> files != [] && forall f :: f in files ==> ':' !in f
  {
    RoundTrip(files, ':');
    var got := Requested(Join(files, ':'));
    var sent := set f | f in files;
    if got == sent {
      forall f | f in files ensures ':' !in f {
        assert f in sent;
      }
      assert Split(Join(files, ':'), ':')[0] in got;
    }
  }

  lemma NothingListed(files: seq<string>)
    ensures Join(files, ':') == "" <==> files == [] || files == [""]
  {
  }

  /** A list the pipeline carries unharmed: not empty, canonical, without colons. */
  ghost predicate Portable(files: seq<string>) {
    files != [] && (forall f :: f in files ==> ':' !in f) && AllCanonical(set f | f in files)
  }

  /** The tool got past the list of files, the pull, the layers, and the extraction and signing of what it found. */
  ghost predicate Signable(pulled: Option<Image>, listed: set<string>, m: Machine) {
    pulled.Some? && AllOpen(pulled.value, m) && !Unsignable(Seen(pulled.value, m), listed, m)
  }

  /** The new image is written for exactly these files, with their signed forms exactly when no two of them clash. */
  ghost predicate Survived(image: Image, listed: set<string>, m: Machine, signed: Image) {
    && IsWritten(signed, image, listed, m)
    && (IsSigned(signed, image, listed, m) <==> NoClash(Seen(image, m), listed, m))
  }

  /**
   Files to sign survive the pipeline: for a portable list, the appended layer lists exactly those files, or the tool
   dies for a stated reason, one of them a file that the walk does not find; and it holds their signed forms exactly
   when no two of them clash on a temporary file. Without a file the tool does nothing and exits as if all were well.
   */
  lemma FilesSurvive(files: seq<string>, pulled: Option<Image>, m: Machine, outcome: Outcome)
    requires Produces(Join(files, ':'), pulled, m, outcome)
    ensures outcome == UsageExit <==> files == [] || files == [""]
    ensures outcome != UsageExit && !AllCanonical(Requested(Join(files, ':'))) ==> outcome == Died(9)
    ensures Portable(files) ==>
      var listed := set f | f in files;
      && (outcome.Appended? <==> Signable(pulled, listed, m) && AllFound(Seen(pulled.value, m), listed))
      && (outcome.Appended? ==> Survived(pulled.value, listed, m, outcome.image))
      && (outcome == Died(3) <==> pulled.None?)
      && (outcome == Died(4) ==> exists f :: f in files && Pick(Seen(pulled.value, m), 0, Components(f)).None?)
      && (outcome.Died? ==> outcome.status in {3, 4, 9})
  {
    NothingListed(files);
    RequestedIsList(files);
    if Portable(files) {
      assert files[0] in files;
      CanonicalIsRooted(files[0]);
      if outcome.Appended? {
        WrittenImageIsSigned(outcome.image, pulled.value, Requested(Join(files, ':')), m);
      }
    }
  }

  lemma CanonicalIsRooted(f: string)
    requires CanonicalisePath(f) == f
    ensures f != ""
  {
  }
}
