/**
 From a module's spec and a kernel version to the data everything else works on (internal/module/kernelmapper.go,
 internal/sign/helper.go), and what stripping a spec for a spoke cluster leaves of it
 (internal/manifestwork/manifestwork.go).
 */
module KernelMapper {
  import opened Base
  import opened Text

  datatype Match = Matches | NoMatch | BadRegexp

  datatype TLS = TLS(insecure: bool, skipVerify: bool)

  datatype Build = Build(config: string)

  datatype Sign = Sign(
    unsignedImage: string, unsignedTLS: TLS, keySecret: Option<string>, certSecret: Option<string>,
    filesToSign: seq<string>)

  datatype KernelMapping = KernelMapping(
    build: Option<Build>, sign: Option<Sign>, containerImage: string, literal: string,
    registryTLS: Option<TLS>, regexp: string)

  /** The container spec without its list of mappings. */
  datatype ContainerSpec = ContainerSpec(
    build: Option<Build>, sign: Option<Sign>, containerImage: string, registryTLS: TLS, modprobe: string)

  datatype Module = Module(
    name: string, namespace: string, selector: map<string, string>, container: ContainerSpec,
    mappings: seq<KernelMapping>)

  datatype ModuleLoaderData = ModuleLoaderData(
    kernelVersion: string, name: string, namespace: string, selector: map<string, string>,
    build: Option<Build>, sign: Option<Sign>, containerImage: string, registryTLS: TLS, modprobe: string)

  /**
   The libraries the mapper calls: regexp.MatchString, envsubst for a kernel, and the merge of two build
   configurations. Deterministic, otherwise unknown.
   */
  datatype Libraries = Libraries(
    matchString: (string, string) -> Match,
    substitute: (string, string) -> Option<string>,
    mergeBuild: (Option<Build>, Option<Build>) -> Build)

  /** Panicked is no error value: the kernel name cannot be taken apart and the process stops. */
  datatype LookupError = NoMapping | RegexpFailed | TemplateFailed | Panicked

  /** KernelComponentsAsEnvVars needs three parts, so two separators. */
  predicate Parses(kernel: string) {
    exists i, j :: 0 <= i < j < |kernel| && IsSeparator(kernel[i]) && IsSeparator(kernel[j])
  }

  predicate IsSeparator(c: char) {
    c == '.' || c == ',' || c == '-'
  }

  ghost predicate NoSeparator(s: string) {
    forall c :: c in s ==> c !in {'.', ',', '-'}
  }

  /** Three parts can be taken apart, fewer cannot. */
  lemma ParsesMeans(a: string, s1: char, b: string, s2: char, c: string)
    requires s1 in {'.', ',', '-'} && s2 in {'.', ',', '-'}
    ensures Parses(a + [s1] + b + [s2] + c)
    ensures NoSeparator(a) && NoSeparator(b) ==> !Parses(a) && !Parses(a + [s1] + b)
  {
    var whole := a + [s1] + b + [s2] + c;
    assert whole[|a|] == s1 && whole[|a| + 1 + |b|] == s2;
    if NoSeparator(a) && NoSeparator(b) {
      var half := a + [s1] + b;
      forall i | 0 <= i < |half| && i != |a| ensures !IsSeparator(half[i]) {
        assert if i < |a| then half[i] == a[i] && a[i] in a else half[i] == b[i - |a| - 1] && half[i] in b;
      }
      assert forall i :: 0 <= i < |a| ==> a[i] in a;
    }
  }

  // ---- findKernelMapping -------------------------------------------------------------------------------

  /** What one mapping says about a kernel; a literal match decides before the regexp is looked at. */
  function Verdict(libs: Libraries, m: KernelMapping, kernel: string): Match {
    if m.literal != "" && m.literal == kernel then Matches
    else if m.regexp == "" then NoMatch
    else libs.matchString(m.regexp, kernel)
  }

  /** The index of the chosen mapping. */
  function Choose(libs: Libraries, ms: seq<KernelMapping>, kernel: string): (r: Result<nat, LookupError>)
    ensures r.Success? <==> exists i :: Decides(libs, ms, kernel, i, Matches)
    ensures r.Success? ==> Decides(libs, ms, kernel, r.value, Matches)
    ensures r == Failure(RegexpFailed) <==> exists i :: Decides(libs, ms, kernel, i, BadRegexp)
    ensures r.Failure? && r.error != RegexpFailed ==> r.error == NoMapping
  {
    ChooseFrom(libs, ms, kernel, 0)
  }

  /** Mapping i is the first that does not simply say no, and it says v. */
  ghost predicate Decides(libs: Libraries, ms: seq<KernelMapping>, kernel: string, i: nat, v: Match) {
    && i < |ms| && v != NoMatch && Verdict(libs, ms[i], kernel) == v
    && forall j :: 0 <= j < i ==> Verdict(libs, ms[j], kernel) == NoMatch
  }

  /** Mapping i is the first that the kernel matches by name or by regexp, and no regexp before it is broken. */
  lemma DecidesMeans(libs: Libraries, ms: seq<KernelMapping>, kernel: string, i: nat)
    requires i < |ms|
    ensures Decides(libs, ms, kernel, i, Matches) <==>
      Accepts(libs, ms[i], kernel) && forall j :: 0 <= j < i ==> PassesOver(libs, ms[j], kernel)
    ensures Decides(libs, ms, kernel, i, BadRegexp) <==>
      && !Accepts(libs, ms[i], kernel) && !PassesOver(libs, ms[i], kernel)
      && forall j :: 0 <= j < i ==> PassesOver(libs, ms[j], kernel)
  {
  }

  ghost predicate Accepts(libs: Libraries, m: KernelMapping, kernel: string) {
    (m.literal == kernel && kernel != "") || (m.regexp != "" && libs.matchString(m.regexp, kernel) == Matches)
  }

  ghost predicate PassesOver(libs: Libraries, m: KernelMapping, kernel: string) {
    !(m.literal == kernel && kernel != "") && (m.regexp == "" || libs.matchString(m.regexp, kernel) == NoMatch)
  }

  function ChooseFrom(libs: Libraries, ms: seq<KernelMapping>, kernel: string, i: nat): (r: Result<nat, LookupError>)
    requires i <= |ms|
    requires forall j :: 0 <= j < i ==> Verdict(libs, ms[j], kernel) == NoMatch
    ensures r == Failure(NoMapping) ==> forall j :: 0 <= j < |ms| ==> Verdict(libs, ms[j], kernel) == NoMatch
    ensures r.Success? ==> Decides(libs, ms, kernel, r.value, Matches)
    ensures r == Failure(RegexpFailed) ==> exists i :: Decides(libs, ms, kernel, i, BadRegexp)
    ensures r.Failure? ==> r.error == NoMapping || r.error == RegexpFailed
    decreases |ms| - i
  {
    if i == |ms| then Failure(NoMapping)
    else match Verdict(libs, ms[i], kernel)
      case Matches => Success(i)
      case BadRegexp => assert Decides(libs, ms, kernel, i, BadRegexp); Failure(RegexpFailed)
      case NoMatch => ChooseFrom(libs, ms, kernel, i + 1)
  }

  method FindKernelMapping(libs: Libraries, mappings: seq<KernelMapping>, kernelVersion: string)
    returns (r: Result<nat, LookupError>)
    ensures r == Choose(libs, mappings, kernelVersion)
  {
    var i := 0;
    while i < |mappings|
      invariant 0 <= i <= |mappings|
      invariant forall j :: 0 <= j < i ==> Verdict(libs, mappings[j], kernelVersion) == NoMatch
      invariant ChooseFrom(libs, mappings, kernelVersion, i) == Choose(libs, mappings, kernelVersion)
    {
      var m := mappings[i];
      if m.literal != "" && m.literal == kernelVersion {
        return Success(i);
      }
      if m.regexp != "" {
        match libs.matchString(m.regexp, kernelVersion) {
          case BadRegexp => return Failure(RegexpFailed);
          case Matches => return Success(i);
          case NoMatch =>
        }
      }
      i := i + 1;
    }
    return Failure(NoMapping);
  }

  // ---- GetRelevantSign ---------------------------------------------------------------------------------

  /** utils.ReplaceInTemplates: all results, or failure at the first template that cannot be substituted. */
  function ReplaceInTemplates(libs: Libraries, kernel: string, templates: seq<string>): (r: Option<seq<string>>)
    ensures r.Some? <==> forall t :: t in templates ==> libs.substitute(kernel, t).Some?
    ensures r.Some? ==> |r.value| == |templates|
    ensures r.Some? ==> forall i :: 0 <= i < |templates| ==> Some(r.value[i]) == libs.substitute(kernel, templates[i])
  {
    if templates == [] then Some([])
    else
      var (first, rest) := (libs.substitute(kernel, templates[0]), ReplaceInTemplates(libs, kernel, templates[1..]));
      assert templates == [templates[0]] + templates[1..];
      if first.Some? && rest.Some? then Some([first.value] + rest.value) else None
  }

  function Or<T>(preferred: Option<T>, default: Option<T>): Option<T> {
    if preferred.Some? then preferred else default
  }

  /** The mapping's settings over the module's; the files of both, the module's first. */
  function MergeSign(moduleSign: Option<Sign>, mappingSign: Option<Sign>): Sign
    requires moduleSign.Some? || mappingSign.Some?
  {
    if moduleSign.None? then mappingSign.value
    else if mappingSign.None? then moduleSign.value
    else
      var (m, k) := (moduleSign.value, mappingSign.value);
      Sign(if k.unsignedImage != "" then k.unsignedImage else m.unsignedImage, m.unsignedTLS,
           Or(k.keySecret, m.keySecret), Or(k.certSecret, m.certSecret), m.filesToSign + k.filesToSign)
  }

  /**
   The mapping's TLS options for the unsigned image take effect only if the module has no sign section or the same.
   */
  lemma MappingTLSSurvives(moduleSign: Option<Sign>, mappingSign: Sign)
    ensures MergeSign(moduleSign, Some(mappingSign)).unsignedTLS == mappingSign.unsignedTLS
            <==> moduleSign.None? || moduleSign.value.unsignedTLS == mappingSign.unsignedTLS
  {
  }

  function RelevantSign(libs: Libraries, moduleSign: Option<Sign>, mappingSign: Option<Sign>, kernel: string)
    : Result<Sign, LookupError>
    requires moduleSign.Some? || mappingSign.Some?
  {
    var merged := MergeSign(moduleSign, mappingSign);
    var image := libs.substitute(kernel, merged.unsignedImage);
    var files := ReplaceInTemplates(libs, kernel, merged.filesToSign);
    if !Parses(kernel) then Failure(Panicked)
    else if image.None? || files.None? then Failure(TemplateFailed)
    else Success(merged.(unsignedImage := image.value, filesToSign := files.value))
  }

  method GetRelevantSign(libs: Libraries, moduleSign: Option<Sign>, mappingSign: Option<Sign>, kernel: string)
    returns (r: Result<Sign, LookupError>)
    requires moduleSign.Some? || mappingSign.Some?
    ensures r == RelevantSign(libs, moduleSign, mappingSign, kernel)
  {
    var signConfig: Sign;
    if moduleSign.None? {
      signConfig := mappingSign.value;
    } else if mappingSign.None? {
      signConfig := moduleSign.value;
    } else {
      signConfig := moduleSign.value;
      if mappingSign.value.unsignedImage != "" {
        signConfig := signConfig.(unsignedImage := mappingSign.value.unsignedImage);
      }
      if mappingSign.value.keySecret.Some? {
        signConfig := signConfig.(keySecret := mappingSign.value.keySecret);
      }
      if mappingSign.value.certSecret.Some? {
        signConfig := signConfig.(certSecret := mappingSign.value.certSecret);
      }
      signConfig := signConfig.(filesToSign := signConfig.filesToSign + mappingSign.value.filesToSign);
    }
    if !Parses(kernel) {
      return Failure(Panicked);
    }
    var unsignedImage := ReplaceInTemplates(libs, kernel, [signConfig.unsignedImage]);
    if unsignedImage.None? {
      return Failure(TemplateFailed);
    }
    signConfig := signConfig.(unsignedImage := unsignedImage.value[0]);
    var filesToSign := ReplaceInTemplates(libs, kernel, signConfig.filesToSign);
    if filesToSign.None? {
      return Failure(TemplateFailed);
    }
    return Success(signConfig.(filesToSign := filesToSign.value));
  }

  // ---- GetModuleLoaderDataForKernel ----------------------------------------------------------------------

  /** prepareModuleLoaderData and replaceTemplates for the chosen mapping. */
  function Prepare(libs: Libraries, mod: Module, m: KernelMapping, kernel: string)
    : Result<ModuleLoaderData, LookupError>
  {
    var c := mod.container;
    var wantsSign := m.sign.Some? || c.sign.Some?;
    var image := libs.substitute(kernel, if m.containerImage == "" then c.containerImage else m.containerImage);
    if wantsSign && RelevantSign(libs, c.sign, m.sign, kernel).Failure? then
      Failure(RelevantSign(libs, c.sign, m.sign, kernel).error)
    else if !Parses(kernel) then Failure(Panicked)
    else if image.None? then Failure(TemplateFailed)
    else Success(ModuleLoaderData(
      kernel, mod.name, mod.namespace, mod.selector,
      if m.build.Some? || c.build.Some? then Some(libs.mergeBuild(c.build, m.build)) else None,
      if wantsSign then Some(RelevantSign(libs, c.sign, m.sign, kernel).value) else None,
      image.value, if m.registryTLS.Some? then m.registryTLS.value else c.registryTLS, c.modprobe))
  }

  function Lookup(libs: Libraries, mod: Module, kernel: string): Result<ModuleLoaderData, LookupError> {
    var chosen := Choose(libs, mod.mappings, kernel);
    if chosen.Failure? then Failure(chosen.error) else Prepare(libs, mod, mod.mappings[chosen.value], kernel)
  }

  /** GetModuleLoaderDataForKernel, filling the data field by field. */
  method GetModuleLoaderDataForKernel(libs: Libraries, mod: Module, kernelVersion: string)
    returns (r: Result<ModuleLoaderData, LookupError>)
    ensures r == Lookup(libs, mod, kernelVersion)
  {
    hide Parses, Choose, RelevantSign;
    var found := FindKernelMapping(libs, mod.mappings, kernelVersion);
    if found.Failure? {
      return Failure(found.error);
    }
    var (mapping, container) := (mod.mappings[found.value], mod.container);
    var mld := ModuleLoaderData(
      kernelVersion, mod.name, mod.namespace, mod.selector, None, None, mapping.containerImage,
      container.registryTLS, container.modprobe);
    if mapping.build.Some? || container.build.Some? {
      mld := mld.(build := Some(libs.mergeBuild(container.build, mapping.build)));
    }
    if mapping.sign.Some? || container.sign.Some? {
      var sign := GetRelevantSign(libs, container.sign, mapping.sign, kernelVersion);
      if sign.Failure? {
        return Failure(sign.error);
      }
      mld := mld.(sign := Some(sign.value));
    }
    if mapping.registryTLS.Some? {
      mld := mld.(registryTLS := mapping.registryTLS.value);
    }
    if mapping.containerImage == "" {
      mld := mld.(containerImage := container.containerImage);
    }
    if !Parses(kernelVersion) {
      return Failure(Panicked);
    }
    var image := ReplaceInTemplates(libs, kernelVersion, [mld.containerImage]);
    return if image.None? then Failure(TemplateFailed) else Success(mld.(containerImage := image.value[0]));
  }

  /** The data of every kernel that has a usable mapping, each looked up on its own. */
  function LookupAll(libs: Libraries, mod: Module, kernels: set<string>): map<string, ModuleLoaderData> {
    map k | k in kernels && Lookup(libs, mod, k).Success? :: Lookup(libs, mod, k).value
  }

  /** All that a kernel without build and sign settings needs. */
  predicate Resolves(libs: Libraries, mod: Module, kernel: string) {
    && Choose(libs, mod.mappings, kernel).Success? && Parses(kernel)
    && var m := mod.mappings[Choose(libs, mod.mappings, kernel).value];
       libs.substitute(kernel, if m.containerImage == "" then mod.container.containerImage else m.containerImage).Some?
  }

  /** A lookup panics exactly when the kernel has a mapping but cannot be taken apart. */
  lemma PanicsIff(libs: Libraries, mod: Module, kernel: string)
    ensures Lookup(libs, mod, kernel) == Failure(Panicked) <==>
      Choose(libs, mod.mappings, kernel).Success? && !Parses(kernel)
  {
  }

  ghost predicate SomePanics(libs: Libraries, mod: Module, kernels: set<string>) {
    exists k :: k in kernels && Lookup(libs, mod, k) == Failure(Panicked)
  }

  /** What a loop over these kernels comes to, whatever it remembers: None when it panics at one of them. */
  ghost function Outcome(libs: Libraries, mod: Module, kernels: set<string>): Option<map<string, ModuleLoaderData>> {
    if SomePanics(libs, mod, kernels) then None else Some(LookupAll(libs, mod, kernels))
  }

  lemma PanicStops(libs: Libraries, mod: Module, some: set<string>, all: set<string>, k: string)
    requires k in some && some <= all && Lookup(libs, mod, k) == Failure(Panicked)
    ensures Outcome(libs, mod, all) == None
  {
  }

  lemma LookupAllGrows(libs: Libraries, mod: Module, kernels: set<string>, k: string)
    ensures var (r, mlds) := (Lookup(libs, mod, k), LookupAll(libs, mod, kernels));
      LookupAll(libs, mod, kernels + {k}) == if r.Success? then mlds[k := r.value] else mlds
  {
  }

  lemma OneMoreKernel(libs: Libraries, mod: Module, kernels: set<string>, k: string)
    requires Outcome(libs, mod, kernels).Some?
    ensures var (r, mlds) := (Lookup(libs, mod, k), LookupAll(libs, mod, kernels));
      Outcome(libs, mod, kernels + {k}) ==
        if r == Failure(Panicked) then None else if r.Success? then Some(mlds[k := r.value]) else Some(mlds)
  {
    LookupAllGrows(libs, mod, kernels, k);
    if Lookup(libs, mod, k) == Failure(Panicked) {
      PanicStops(libs, mod, {k}, kernels + {k}, k);
    }
  }

  lemma AlreadyLookedUp(libs: Libraries, mod: Module, kernels: set<string>, k: string)
    requires k in LookupAll(libs, mod, kernels)
    ensures Lookup(libs, mod, k).Success? && kernels + {k} == kernels
  {
  }

  /** A kernel's data always carries that kernel, so an entry of LookupAll has its key as its kernel. */
  lemma LookupKeepsKernel(libs: Libraries, mod: Module, kernel: string)
    requires Lookup(libs, mod, kernel).Success?
    ensures Lookup(libs, mod, kernel).value.kernelVersion == kernel
  {
  }

  // ---- What a lookup yields --------------------------------------------------------------------------------

  /** results are the templates, each substituted for the kernel, in order. */
  ghost predicate Substituted(libs: Libraries, kernel: string, templates: seq<string>, results: seq<string>) {
    |results| == |templates| && forall i :: 0 <= i < |templates| ==>
      libs.substitute(kernel, templates[i]) == Some(results[i])
  }

  function FilesOf(sign: Option<Sign>): seq<string> {
    if sign.None? then [] else sign.value.filesToSign
  }

  /** The template of the unsigned image: the mapping's if it has one, else the module's. */
  function UnsignedTemplate(c: Option<Sign>, m: Option<Sign>): string {
    if m.Some? && m.value.unsignedImage != "" then m.value.unsignedImage
    else if c.Some? then c.value.unsignedImage else ""
  }

  function ImageTemplate(mod: Module, m: KernelMapping): string {
    if m.containerImage != "" then m.containerImage else mod.container.containerImage
  }

  /**
   A sign section made of the module's (c) and the mapping's (m): keys and unsigned image the mapping's where it sets
   them, the TLS options the module's if it has a section, the files those of both.
   */
  ghost predicate Joins(libs: Libraries, kernel: string, c: Option<Sign>, m: Option<Sign>, r: Sign) {
    && libs.substitute(kernel, UnsignedTemplate(c, m)) == Some(r.unsignedImage)
    && Substituted(libs, kernel, FilesOf(c) + FilesOf(m), r.filesToSign)
    && (c.Some? ==> r.unsignedTLS == c.value.unsignedTLS)
    && (c.None? && m.Some? ==> r.unsignedTLS == m.value.unsignedTLS)
    && r.keySecret == (if m.Some? && m.value.keySecret.Some? then m.value.keySecret
                       else if c.Some? then c.value.keySecret else None)
    && r.certSecret == (if m.Some? && m.value.certSecret.Some? then m.value.certSecret
                        else if c.Some? then c.value.certSecret else None)
  }

  lemma RelevantSignJoins(libs: Libraries, c: Option<Sign>, m: Option<Sign>, kernel: string)
    requires (c.Some? || m.Some?) && RelevantSign(libs, c, m, kernel).Success?
    ensures Joins(libs, kernel, c, m, RelevantSign(libs, c, m, kernel).value)
  {
    assert FilesOf(c) + FilesOf(m) == MergeSign(c, m).filesToSign;
    assert UnsignedTemplate(c, m) == MergeSign(c, m).unsignedImage;
  }

  /** Whatever decides for a kernel is what Choose finds. */
  lemma DecidesIsChoice(libs: Libraries, ms: seq<KernelMapping>, kernel: string, i: nat)
    requires Decides(libs, ms, kernel, i, Matches)
    ensures Choose(libs, ms, kernel) == Success(i)
  {
    var j := Choose(libs, ms, kernel).value;
    assert Decides(libs, ms, kernel, j, Matches);
  }

  /** A kernel is to be signed if and only if its mapping or the module has a sign section, and then by both. */
  lemma LookupSigns(libs: Libraries, mod: Module, kernel: string, i: nat)
    requires Lookup(libs, mod, kernel).Success? && Decides(libs, mod.mappings, kernel, i, Matches)
    ensures var (c, m, r) := (mod.container, mod.mappings[i], Lookup(libs, mod, kernel).value);
      && (r.sign.Some? <==> m.sign.Some? || c.sign.Some?)
      && (r.sign.Some? ==> Joins(libs, kernel, c.sign, m.sign, r.sign.value))
  {
    DecidesIsChoice(libs, mod.mappings, kernel, i);
    var (c, m) := (mod.container, mod.mappings[i]);
    if m.sign.Some? || c.sign.Some? { RelevantSignJoins(libs, c.sign, m.sign, kernel); }
    hide Joins, RelevantSign;
  }

  /** Likewise for the build; the image and the registry's TLS are the mapping's where set; the rest is the module's. */
  lemma LookupFields(libs: Libraries, mod: Module, kernel: string, i: nat)
    requires Lookup(libs, mod, kernel).Success? && Decides(libs, mod.mappings, kernel, i, Matches)
    ensures var (c, m, r) := (mod.container, mod.mappings[i], Lookup(libs, mod, kernel).value);
      && libs.substitute(kernel, ImageTemplate(mod, m)) == Some(r.containerImage)
      && (r.build.Some? <==> m.build.Some? || c.build.Some?)
      && (r.build.Some? ==> r.build.value == libs.mergeBuild(c.build, m.build))
      && (m.registryTLS.Some? ==> r.registryTLS == m.registryTLS.value)
      && (m.registryTLS.None? ==> r.registryTLS == c.registryTLS)
      && r.name == mod.name && r.namespace == mod.namespace && r.selector == mod.selector && r.modprobe == c.modprobe
  {
    DecidesIsChoice(libs, mod.mappings, kernel, i);
  }

  /** Every template the chosen mapping needs can be substituted. */
  ghost predicate TemplatesWork(libs: Libraries, mod: Module, m: KernelMapping, kernel: string) {
    && libs.substitute(kernel, ImageTemplate(mod, m)).Some?
    && (m.sign.Some? || mod.container.sign.Some? ==>
      && libs.substitute(kernel, UnsignedTemplate(mod.container.sign, m.sign)).Some?
      && forall f :: f in FilesOf(mod.container.sign) + FilesOf(m.sign) ==> libs.substitute(kernel, f).Some?)
  }

  /** When a lookup succeeds, and which error it gives otherwise. */
  lemma LookupOutcome(libs: Libraries, mod: Module, kernel: string)
    ensures var (r, ms) := (Lookup(libs, mod, kernel), mod.mappings);
      && (r.Success? <==>
        && Parses(kernel)
        && exists i: nat :: Decides(libs, ms, kernel, i, Matches) && TemplatesWork(libs, mod, ms[i], kernel))
      && (r == Failure(TemplateFailed) <==>
        && Parses(kernel)
        && exists i: nat :: Decides(libs, ms, kernel, i, Matches) && !TemplatesWork(libs, mod, ms[i], kernel))
      && (r == Failure(RegexpFailed) <==> exists i :: Decides(libs, ms, kernel, i, BadRegexp))
      && (r == Failure(NoMapping) <==> forall i :: 0 <= i < |ms| ==> PassesOver(libs, ms[i], kernel))
  {
    var chosen := Choose(libs, mod.mappings, kernel);
    if chosen.Success? {
      var (i, c, m) := (chosen.value, mod.container, mod.mappings[chosen.value]);
      assert Decides(libs, mod.mappings, kernel, i, Matches);
      forall j: nat | Decides(libs, mod.mappings, kernel, j, Matches) ensures j == i {
        DecidesIsChoice(libs, mod.mappings, kernel, j);
      }
      if m.sign.Some? || c.sign.Some? {
        assert FilesOf(c.sign) + FilesOf(m.sign) == MergeSign(c.sign, m.sign).filesToSign;
        assert UnsignedTemplate(c.sign, m.sign) == MergeSign(c.sign, m.sign).unsignedImage;
      }
    }
  }

  // ---- Stripping a spec for a spoke cluster ----------------------------------------------------------------

  function StripMapping(m: KernelMapping): KernelMapping {
    m.(build := None, sign := None)
  }

  function StripAll(ms: seq<KernelMapping>): (stripped: seq<KernelMapping>)
    ensures |stripped| == |ms|
  {
    seq(|ms|, i requires 0 <= i < |ms| => StripMapping(ms[i]))
  }

  /** m' is m with its build, its sign, both or neither stripped. */
  predicate LeftOf(m: KernelMapping, m': KernelMapping) {
    && m' == m.(build := m'.build, sign := m'.sign)
    && (m'.build == m.build || m'.build == None) && (m'.sign == m.sign || m'.sign == None)
  }

  /** What any reader of the shared slice can meet while ms is being stripped. */
  ghost predicate PartlyStripped(ms: seq<KernelMapping>, ms': seq<KernelMapping>) {
    |ms'| == |ms| && forall i :: 0 <= i < |ms| ==> LeftOf(ms[i], ms'[i])
  }

  /** ms after the first n assignments of the stripping loop: build and sign of one mapping after the other. */
  function AfterWrites(ms: seq<KernelMapping>, n: nat): (r: seq<KernelMapping>)
    ensures PartlyStripped(ms, r)
  {
    seq(|ms|, i requires 0 <= i < |ms| =>
      if n <= 2 * i then ms[i] else if n == 2 * i + 1 then ms[i].(build := None) else StripMapping(ms[i]))
  }

  /** The module the spoke cluster receives. */
  function SpokeModule(mod: Module, spokeNamespace: string): Module {
    mod.(namespace := spokeNamespace, container := mod.container.(build := None, sign := None),
         mappings := StripAll(mod.mappings))
  }

  /**
   The stripping of SetManifestWorkAsDesired. The struct is a copy, but its slice of mappings is shared with the caller,
   so the mappings are stripped in place; passed holds the slice after each assignment.
   */
  method StripForSpoke(container: ContainerSpec, kernelMappings: array<KernelMapping>)
    returns (shipped: ContainerSpec, ghost passed: seq<seq<KernelMapping>>)
    modifies kernelMappings
    ensures shipped == container.(build := None, sign := None)
    ensures kernelMappings[..] == StripAll(old(kernelMappings[..]))
    ensures |passed| == 2 * kernelMappings.Length
    ensures forall n :: 0 <= n < |passed| ==> passed[n] == AfterWrites(old(kernelMappings[..]), n + 1)
    ensures forall n :: 0 <= n < |passed| ==> PartlyStripped(old(kernelMappings[..]), passed[n])
  {
    shipped := container.(build := None, sign := None);
    ghost var ms := kernelMappings[..];
    passed := [];
    var i := 0;
    while i < kernelMappings.Length
      invariant 0 <= i <= kernelMappings.Length
      invariant kernelMappings[..] == AfterWrites(ms, 2 * i)
      invariant |passed| == 2 * i
      invariant forall n :: 0 <= n < |passed| ==> passed[n] == AfterWrites(ms, n + 1)
    {
      kernelMappings[i] := kernelMappings[i].(build := None);
      passed := passed + [kernelMappings[..]];
      assert kernelMappings[..] == AfterWrites(ms, 2 * i + 1);
      kernelMappings[i] := kernelMappings[i].(sign := None);
      passed := passed + [kernelMappings[..]];
      i := i + 1;
    }
  }

  lemma {:induction false} SameChoiceFrom(libs: Libraries, ms: seq<KernelMapping>, ms': seq<KernelMapping>,
                                          kernel: string, i: nat)
    requires PartlyStripped(ms, ms') && i <= |ms|
    requires forall j :: 0 <= j < i ==>
      Verdict(libs, ms[j], kernel) == NoMatch && Verdict(libs, ms'[j], kernel) == NoMatch
    ensures ChooseFrom(libs, ms', kernel, i) == ChooseFrom(libs, ms, kernel, i)
    decreases |ms| - i
  {
    if i < |ms| {
      assert Verdict(libs, ms'[i], kernel) == Verdict(libs, ms[i], kernel);
      if Verdict(libs, ms[i], kernel) == NoMatch { SameChoiceFrom(libs, ms, ms', kernel, i + 1); }
    }
  }

  /** Stripping, complete or cut short anywhere, never changes which mapping a lookup chooses, its image or its TLS. */
  lemma StrippingKeepsChoice(libs: Libraries, ms: seq<KernelMapping>, ms': seq<KernelMapping>, kernel: string)
    requires PartlyStripped(ms, ms')
    ensures Choose(libs, ms', kernel) == Choose(libs, ms, kernel)
    ensures Choose(libs, ms, kernel).Success? ==>
      var i := Choose(libs, ms, kernel).value;
      ms'[i].containerImage == ms[i].containerImage && ms'[i].registryTLS == ms[i].registryTLS
  {
    SameChoiceFrom(libs, ms, ms', kernel, 0);
  }

  /**
   Whatever the hub resolves for a kernel, the spoke resolves to the same thing without build and sign. The spoke
   resolves a kernel exactly when the hub finds a mapping for it, the kernel can be taken apart and the image name can
   be substituted; and it panics exactly when the hub does.
   */
  lemma StrippingPreservesMeaning(libs: Libraries, mod: Module, spokeNamespace: string, kernel: string)
    ensures var (hub, spoke) := (Lookup(libs, mod, kernel), Lookup(libs, SpokeModule(mod, spokeNamespace), kernel));
      && (hub.Success? ==> spoke == Success(hub.value.(build := None, sign := None, namespace := spokeNamespace)))
      && (spoke.Success? <==> Resolves(libs, mod, kernel))
      && (spoke == Failure(Panicked) <==> hub == Failure(Panicked))
  {
    StrippingKeepsChoice(libs, mod.mappings, StripAll(mod.mappings), kernel);
  }
}
