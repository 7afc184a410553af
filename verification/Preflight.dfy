/**
 Preflight validation (controllers/preflightvalidation_reconciler.go, internal/preflight/preflight.go,
 internal/statusupdater/statusupdater.go): the modules' verification status, in a local copy that is changed and a
 stored copy that writes may or may not reach.

 The preflight spec does not change, and this controller is the only writer of the status. A write may be lost, or
 accepted without the answer being heard, and is refused when the copy is not of the latest version; most failures are
 only logged. A read may return an earlier version.
 */
module Preflight {
  import opened Base

  datatype Stage = ImageStage | BuildStage | SignStage | Requeued | Done

  datatype CRStatus = CRStatus(verified: bool, stage: Stage)

  type Statuses = map<string, CRStatus>

  // ---- PreflightUpgradeCheck ---------------------------------------------------------------------------

  datatype LayerProbe = HasModule | LacksModule | Unreadable

  datatype SyncOutcome = SyncCompleted | SyncPending | SyncError

  /** What the outside world answers while a module is checked. layers is None when the image cannot be read. */
  datatype Trial = Trial(
    mappingFound: bool, layers: Option<seq<LayerProbe>>,
    shouldBuild: bool, build: SyncOutcome, shouldSign: bool, sign: SyncOutcome)

  datatype Module = Module(name: string, deleting: bool, trial: Trial)

  /** Some layer has the kernel module, and every layer above it can be read and lacks it. */
  ghost predicate ImageVerifies(layers: seq<LayerProbe>) {
    exists i :: 0 <= i < |layers| && layers[i] == HasModule && forall j :: i < j < |layers| ==> layers[j] == LacksModule
  }

  /** What a positive answer stands for: the image is good, or everything asked for was built and signed. */
  ghost predicate Verifies(t: Trial) {
    && t.mappingFound
    && ((t.layers.Some? && ImageVerifies(t.layers.value))
        || ((t.shouldBuild || t.shouldSign)
            && (t.shouldBuild ==> t.build == SyncCompleted) && (t.shouldSign ==> t.sign == SyncCompleted)))
  }

  /** The topmost layer that has the module or cannot be read decides. */
  lemma TopmostDecides(low: seq<LayerProbe>, probe: LayerProbe, high: seq<LayerProbe>)
    requires forall p :: p in high ==> p == LacksModule
    ensures ImageVerifies(low + [probe] + high) <==> probe == HasModule || (probe == LacksModule && ImageVerifies(low))
  {
    var layers := low + [probe] + high;
    assert forall j :: |low| < j < |layers| ==> layers[j] == high[j - |low| - 1] && layers[j] in high;
    assert layers[|low|] == probe;
    assert forall j :: 0 <= j < |low| ==> layers[j] == low[j];
    if i :| 0 <= i < |low| && low[i] == HasModule && forall j :: i < j < |low| ==> low[j] == LacksModule {
      assert probe == LacksModule ==> ImageVerifies(layers) by { assert layers[i] == HasModule; }
    }
  }

  /** The stages a module goes through until one of them answers. */
  lemma VerifiesMeans(t: Trial)
    ensures var imageGood := t.layers.Some? && ImageVerifies(t.layers.value);
      && (!t.mappingFound ==> !Verifies(t))
      && (t.mappingFound && imageGood ==> Verifies(t))
      && (t.mappingFound && !imageGood && t.shouldBuild && t.build != SyncCompleted ==> !Verifies(t))
      && (t.mappingFound && !imageGood && t.shouldSign ==>
          (Verifies(t) <==> t.sign == SyncCompleted && (t.shouldBuild ==> t.build == SyncCompleted)))
      && (t.mappingFound && !imageGood && !t.shouldSign ==>
          (Verifies(t) <==> t.shouldBuild && t.build == SyncCompleted))
  {
  }

  /** verifyImage: the layers from the top down. */
  method VerifyImage(layers: Option<seq<LayerProbe>>) returns (verified: bool)
    ensures verified <==> layers.Some? && ImageVerifies(layers.value)
  {
    if layers.None? {
      return false;
    }
    var i := |layers.value| - 1;
    while i >= 0
      invariant -1 <= i < |layers.value|
      invariant forall j :: i < j < |layers.value| ==> layers.value[j] == LacksModule
    {
      match layers.value[i] {
        case Unreadable => return false;
        case HasModule => return true;
        case LacksModule => i := i - 1;
      }
    }
    return false;
  }

  // ---- The reconciler ----------------------------------------------------------------------------------

  datatype Check = Check(name: string, verified: bool)

  /** Every entry marked verified belongs to a check that returned verified. */
  ghost predicate Backed(statuses: Statuses, checks: seq<Check>) {
    forall m :: m in statuses && statuses[m].verified ==> Check(m, true) in checks
  }

  /** The names a pass is about. */
  function Listed(modules: seq<Module>): set<string> {
    set m | m in modules && !m.deleting :: m.name
  }

  function Settled(verified: bool): CRStatus {
    CRStatus(verified, if verified then Done else Requeued)
  }

  /**
   What presetting the statuses makes of them: exactly the listed modules, old entries kept, new ones not verified.
   */
  function Preset(statuses: Statuses, modules: seq<Module>): Statuses {
    map m | m in Listed(modules) :: if m in statuses then statuses[m] else CRStatus(false, ImageStage)
  }

  /** The same, module by module. */
  lemma PresetMeans(statuses: Statuses, modules: seq<Module>, n: string)
    ensures var preset := Preset(statuses, modules);
      && (n in preset <==> exists m :: m in modules && m.name == n && !m.deleting)
      && (n in preset && n in statuses ==> preset[n] == statuses[n])
      && (n in preset && n !in statuses ==> preset[n] == CRStatus(false, ImageStage))
  {
  }

  function Only(statuses: Statuses, names: set<string>): Statuses {
    map m | m in statuses && m in names :: statuses[m]
  }

  function WithNew(statuses: Statuses, names: set<string>): Statuses {
    statuses + map m | m in names :: CRStatus(false, ImageStage)
  }

  /** The undeleted modules that are not verified, in the order listed. */
  function Unverified(modules: seq<Module>, statuses: Statuses): (r: seq<Module>)
    ensures forall m :: m in r ==> m in modules && !m.deleting && (m.name in statuses ==> !statuses[m.name].verified)
  {
    if modules == [] then []
    else
      var init, last := modules[..|modules| - 1], modules[|modules| - 1];
      var rest := Unverified(init, statuses);
      assert modules == init + [last];
      if last.deleting || (last.name in statuses && statuses[last.name].verified) then rest else rest + [last]
  }

  /** Each module is kept or left out on its own, and the order stays. */
  lemma UnverifiedOneMore(modules: seq<Module>, m: Module, statuses: Statuses)
    ensures Unverified([], statuses) == []
    ensures var out := m.deleting || (m.name in statuses && statuses[m.name].verified);
      Unverified(modules + [m], statuses) == Unverified(modules, statuses) + if out then [] else [m]
  {
    assert (modules + [m])[..|modules|] == modules;
  }

  /** b differs from a at most in the entry of m. */
  ghost predicate SameBut(a: Statuses, b: Statuses, m: string) {
    a.Keys == b.Keys && forall n :: n in a && n != m ==> b[n] == a[n]
  }

  /** b differs from a at most in the stage of m. */
  ghost predicate OnlyStage(a: Statuses, b: Statuses, m: string) {
    SameBut(a, b, m) && (m in a ==> b[m].verified == a[m].verified)
  }

  /** What was verified in a is found the same in b, which has the same keys. */
  ghost predicate Kept(a: Statuses, b: Statuses) {
    a.Keys == b.Keys && forall n :: n in a && a[n].verified ==> b[n] == a[n]
  }

  /** No check was of a module that is verified in a. */
  ghost predicate SkipsVerified(checks: seq<Check>, a: Statuses) {
    forall c :: c in checks ==> c.name in a && !a[c.name].verified
  }

  /** The entry of every module in done holds what the check of a module of that name answered. */
  ghost predicate AllSettled(done: seq<Module>, a: Statuses) {
    forall n :: n in (set m | m in done :: m.name) ==> n in a && SettledBy(done, a[n], n)
  }

  ghost predicate SettledBy(done: seq<Module>, status: CRStatus, n: string) {
    exists m :: m in done && m.name == n &&
      status == if Verifies(m.trial) then CRStatus(true, Done) else CRStatus(false, Requeued)
  }

  /**
   One pass from before to after: what was verified and is still listed stays so, and is not checked again. modules is
   None in a pass that could not list them.
   */
  ghost predicate Pass(before: Statuses, modules: Option<seq<Module>>, after: Statuses, checked: seq<Check>) {
    forall n :: n in before && before[n].verified && (modules.Some? ==> n in Listed(modules.value)) ==>
      n in after && after[n] == before[n] && Untouched(n, checked)
  }

  ghost predicate Untouched(n: string, checked: seq<Check>) {
    forall c :: c in checked ==> c.name != n
  }

  /** Every listed module was checked with a positive answer. */
  ghost predicate AllChecked(modules: seq<Module>, checks: seq<Check>) {
    forall n :: n in Listed(modules) ==> Check(n, true) in checks
  }

  /** Every entry is (verified, Done) or (not verified, Requeued). */
  ghost predicate EntriesSettled(a: Statuses) {
    forall n :: n in a ==> a[n] == CRStatus(true, Done) || a[n] == CRStatus(false, Requeued)
  }

  /** The verified entries that presetting keeps have reached the last stage. */
  ghost predicate KeptAreDone(a: Statuses, modules: seq<Module>) {
    forall n :: n in a && n in Listed(modules) && a[n].verified ==> a[n].stage == Done
  }

  ghost predicate AllVerified(a: Statuses) {
    forall n :: n in a ==> a[n].verified
  }

  /** A copy of the statuses after some checks of a pass begun on start with the checks had. */
  ghost predicate Between(start: Statuses, had: seq<Check>, a: Statuses, checks: seq<Check>) {
    Backed(a, checks) && Kept(start, a) && had <= checks && SkipsVerified(checks[|had|..], start)
  }

  /** A check of a module that was not verified may change its entry, to verified only if it answered so. */
  lemma CheckKeeps(start: Statuses, had: seq<Check>, a: Statuses, checks: seq<Check>, n: string, verified: bool,
                   b: Statuses)
    requires Between(start, had, a, checks) && n in start && !start[n].verified
    requires SameBut(a, b, n) && (b[n].verified ==> verified || a[n].verified)
    ensures Between(start, had, b, checks + [Check(n, verified)])
  {
    var more := checks + [Check(n, verified)];
    assert more[|had|..] == checks[|had|..] + [Check(n, verified)];
    forall m | m in b && b[m].verified ensures Check(m, true) in more {
      if m == n && verified {
        assert more[|checks|] == Check(m, true);
      } else {
        assert Check(m, true) in checks;
      }
    }
  }

  lemma SettlesOneMore(done: seq<Module>, m: Module, a: Statuses, b: Statuses)
    requires AllSettled(done, a) && SameBut(a, b, m.name) && m.name in b && b[m.name] == Settled(Verifies(m.trial))
    ensures AllSettled(done + [m], b)
  {
    var all := done + [m];
    forall n | n in (set d | d in all :: d.name) ensures n in b && SettledBy(all, b[n], n) {
      if n == m.name {
        assert m in all;
      } else {
        assert n in (set d | d in done :: d.name);
        var d :| d in done && d.name == n && a[n] == Settled(Verifies(d.trial));
        assert d in all;
      }
    }
  }

  lemma PresetKeepsBacked(a: Statuses, modules: seq<Module>, checks: seq<Check>)
    requires Backed(a, checks)
    ensures Backed(Preset(a, modules), checks)
  {
  }

  /** Presetting does not change which modules are to be checked, as new entries are not verified. */
  lemma {:induction false} UnverifiedAfterPreset(a: Statuses, all: seq<Module>, modules: seq<Module>)
    requires forall m :: m in modules ==> m in all
    ensures Unverified(modules, Preset(a, all)) == Unverified(modules, a)
    ensures Checkable(Unverified(modules, Preset(a, all)), Preset(a, all))
  {
    if modules != [] {
      var last := modules[|modules| - 1];
      assert last in modules;
      assert !last.deleting ==> last.name in Listed(all);
      UnverifiedAfterPreset(a, all, modules[..|modules| - 1]);
    }
  }

  lemma NoChecksPass(a: Statuses, modules: seq<Module>, b: Statuses)
    requires b == a || b == Preset(a, modules)
    ensures Pass(a, Some(modules), b, [])
  {
  }

  /**
   After a pass whose writes all succeeded, no entry is half-way, unless a verified one that is not checked was before.
   */
  lemma EntriesEndSettled(a: Statuses, modules: seq<Module>, b: Statuses, checked: seq<Check>)
    requires Pass(a, Some(modules), b, checked) && b.Keys == Listed(modules)
    requires AllSettled(Unverified(modules, a), b)
    ensures EntriesSettled(b) <==> KeptAreDone(a, modules)
  {
    var todo := Unverified(modules, a);
    forall n | n in b && (n !in a || !a[n].verified) ensures b[n] == Settled(b[n].verified) {
      EntryIsSettled(a, modules, b, n);
    }
  }

  lemma EntryIsSettled(a: Statuses, modules: seq<Module>, b: Statuses, n: string)
    requires AllSettled(Unverified(modules, a), b) && n in Listed(modules) && (n !in a || !a[n].verified)
    ensures n in b && b[n] == Settled(b[n].verified)
  {
    var todo := Unverified(modules, a);
    var m :| m in modules && !m.deleting && m.name == n;
    UnverifiedHas(modules, a, m);
    assert n in (set d | d in todo :: d.name);
    assert SettledBy(todo, b[n], n);
  }

  lemma {:induction false} UnverifiedHas(modules: seq<Module>, a: Statuses, m: Module)
    requires m in modules && !m.deleting && (m.name !in a || !a[m.name].verified)
    ensures m in Unverified(modules, a)
  {
    if m != modules[|modules| - 1] {
      UnverifiedHas(modules[..|modules| - 1], a, m);
    }
  }

  lemma ChecksPass(a: Statuses, modules: seq<Module>, b: Statuses, checked: seq<Check>)
    requires Kept(Preset(a, modules), b) && SkipsVerified(checked, Preset(a, modules))
    ensures Pass(a, Some(modules), b, checked)
  {
  }

  /** The loop of checkPreflightCompletion, in whatever order the map yields its entries. */
  method AllTrue(statuses: Statuses) returns (r: bool)
    ensures r <==> AllVerified(statuses)
  {
    var todo := statuses.Keys;
    while todo != {}
      invariant todo <= statuses.Keys
      invariant forall n :: n in statuses && n !in todo ==> statuses[n].verified
      decreases |todo|
    {
      var n :| n in todo;
      todo := todo - {n};
      if !statuses[n].verified {
        return false;
      }
    }
    return true;
  }

  /** The loop of PreflightPresetStatuses over the new modules, in whatever order. */
  method AddNew(statuses: Statuses, newModules: set<string>) returns (r: Statuses)
    ensures r == WithNew(statuses, newModules)
  {
    r := statuses;
    var todo := newModules;
    while todo != {}
      invariant todo <= newModules
      invariant r == WithNew(statuses, newModules - todo)
      decreases |todo|
    {
      var m :| m in todo;
      assert newModules - (todo - {m}) == newModules - todo + {m};
      todo := todo - {m};
      r := r[m := CRStatus(false, ImageStage)];
    }
    assert newModules - todo == newModules;
  }

  /** All modules to check have an entry that is not verified. */
  ghost predicate Checkable(toCheck: seq<Module>, statuses: Statuses) {
    forall m :: m in toCheck ==> m.name in statuses && !statuses[m.name].verified
  }

  // ---- The API server ----------------------------------------------------------------------------------

  /** All versions of the stored status, the latest last. */
  type History = h: seq<Statuses> | h != [] witness [map[]]

  function LatestOf(h: History): Statuses {
    h[|h| - 1]
  }

  datatype Write = Accepted | AcceptedUnheard | Lost

  function WithVersion(h: History, v: Statuses): (r: History)
    ensures r == h + [v]
  {
    assert |h + [v]| > 0;
    h + [v]
  }

  /** What a Get returns: nothing, the latest version, or version i, if there are that many. */
  datatype Read = ReadFails | Latest | Version(i: nat)

  function IndexOf(read: Read, h: History): nat
    ensures IndexOf(read, h) < |h|
  {
    if read.Version? && read.i < |h| then read.i else |h| - 1
  }

  predicate IsCurrent(read: Read, h: History) {
    !read.ReadFails? && IndexOf(read, h) == |h| - 1
  }

  /** The read does not return one of the first n versions. */
  predicate IsFresh(read: Read, n: nat) {
    read.Latest? || (read.Version? && n <= read.i)
  }

  ghost predicate AllBacked(versions: seq<Statuses>, checks: seq<Check>) {
    forall v :: v in versions ==> Backed(v, checks)
  }

  ghost predicate AllStageOf(a: Statuses, versions: seq<Statuses>, m: string) {
    forall v :: v in versions ==> OnlyStage(a, v, m)
  }

  ghost predicate AllBetween(start: Statuses, had: seq<Check>, versions: seq<Statuses>, checks: seq<Check>) {
    forall v :: v in versions ==> Between(start, had, v, checks)
  }

  /** Status of m written as answered; the rest of the entry may be half-way. */
  ghost predicate AllAnswered(a: Statuses, versions: seq<Statuses>, m: string, verified: bool) {
    forall v: Statuses :: v in versions ==> SameBut(a, v, m) && m in v && v[m].verified == verified
  }

  lemma MoreBacked(versions: seq<Statuses>, checks: seq<Check>, more: seq<Check>)
    requires AllBacked(versions, checks) && checks <= more
    ensures AllBacked(versions, more)
  {
    forall v | v in versions ensures Backed(v, more) {
      assert Backed(v, checks);
    }
  }

  lemma BetweenIsBacked(start: Statuses, had: seq<Check>, versions: seq<Statuses>, checks: seq<Check>)
    requires AllBetween(start, had, versions, checks)
    ensures AllBacked(versions, checks)
  {
    forall v | v in versions ensures Backed(v, checks) {
      assert Between(start, had, v, checks);
    }
  }

  lemma BackedMeansChecked(v: Statuses, modules: seq<Module>, checks: seq<Check>)
    requires Backed(v, checks) && AllVerified(v) && v.Keys == Listed(modules)
    ensures AllChecked(modules, checks)
  {
  }

  /** One round of the loop over the modules keeps what is known about the versions stored so far and adds such ones. */
  lemma RoundKeeps(start: Statuses, had: seq<Check>, pv: Statuses, older: seq<Statuses>, staged: seq<Statuses>,
                   answered: seq<Statuses>, checks: seq<Check>, n: string, verified: bool, pv': Statuses)
    requires Between(start, had, pv, checks) && AllBetween(start, had, older, checks)
    requires n in start && !start[n].verified && n in pv
    requires AllStageOf(pv, staged, n) && SameBut(pv, pv', n) && pv'[n].verified == verified
    requires AllAnswered(pv', answered, n, verified)
    ensures AllBetween(start, had, older + staged + answered, checks + [Check(n, verified)])
    ensures Between(start, had, pv', checks + [Check(n, verified)])
  {
    hide Between;
    forall v | v in older + staged + answered ensures Between(start, had, v, checks + [Check(n, verified)]) {
      if v in older {
        OldVersionKeeps(start, had, v, checks, n, verified);
      } else {
        CheckKeeps(start, had, pv, checks, n, verified, v);
      }
    }
    CheckKeeps(start, had, pv, checks, n, verified, pv');
  }

  lemma OldVersionKeeps(start: Statuses, had: seq<Check>, v: Statuses, checks: seq<Check>, n: string, verified: bool)
    requires Between(start, had, v, checks) && n in start && !start[n].verified
    ensures Between(start, had, v, checks + [Check(n, verified)])
  {
    CheckKeeps(start, had, v, checks, n, verified, v);
  }

  lemma InBetween(start: Statuses, had: seq<Check>, a: Statuses, checks: seq<Check>)
    requires Between(start, had, a, checks)
    ensures a.Keys == start.Keys
  {
  }

  lemma MoreStages(pv0: Statuses, pv1: Statuses, pv2: Statuses, h0: seq<Statuses>, h1: seq<Statuses>, h2: seq<Statuses>,
                   m: string)
    requires OnlyStage(pv0, pv1, m) && OnlyStage(pv1, pv2, m)
    requires h0 <= h1 <= h2 && AllStageOf(pv0, h1[|h0|..], m) && AllStageOf(pv1, h2[|h1|..], m)
    ensures OnlyStage(pv0, pv2, m) && h0 <= h2 && AllStageOf(pv0, h2[|h0|..], m)
  {
    assert h2[|h0|..] == h1[|h0|..] + h2[|h1|..];
  }

  /** The loop of presetModulesStatuses: the names of the undeleted modules, and those of them without an entry. */
  method ListNames(modules: seq<Module>, known: set<string>) returns (existing: set<string>, newModules: set<string>)
    ensures existing == Listed(modules) && newModules == existing - known
  {
    existing, newModules := {}, {};
    for i := 0 to |modules|
      invariant existing == Listed(modules[..i]) && newModules == existing - known
    {
      assert modules[..i + 1] == modules[..i] + [modules[i]];
      if !modules[i].deleting {
        existing := existing + {modules[i].name};
        if modules[i].name !in known {
          newModules := newModules + {modules[i].name};
        }
      }
    }
    assert modules[..|modules|] == modules;
  }

  /** The loop of getModulesToCheck. */
  method Filter(modules: seq<Module>, statuses: Statuses) returns (r: seq<Module>)
    requires statuses.Keys == Listed(modules)
    ensures r == Unverified(modules, statuses)
  {
    r := [];
    for i := 0 to |modules|
      invariant r == Unverified(modules[..i], statuses)
    {
      assert modules[..i + 1][..i] == modules[..i];
      if !modules[i].deleting && !statuses[modules[i].name].verified {
        r := r + [modules[i]];
      }
    }
    assert modules[..|modules|] == modules;
  }

  lemma NothingDone(h: History, modules: Option<seq<Module>>, checks: seq<Check>)
    ensures Pass(LatestOf(h), modules, LatestOf(h), checks[|checks|..])
  {
  }

  lemma PresetOnly(h0: History, modules: seq<Module>, h: History, checks: seq<Check>, pv: Statuses)
    requires AllBacked(h0, checks) && (h == h0 || (h == h0 + [pv] && pv == Preset(LatestOf(h0), modules)))
    ensures AllBacked(h, checks) && Pass(LatestOf(h0), Some(modules), LatestOf(h), checks[|checks|..])
  {
    PresetKeepsBacked(LatestOf(h0), modules, checks);
    NoChecksPass(LatestOf(h0), modules, LatestOf(h));
    assert checks[|checks|..] == [];
  }

  lemma ListedAfterPreset(before: Statuses, modules: seq<Module>)
    ensures Unverified(modules, Preset(before, modules)) == Unverified(modules, before)
    ensures Checkable(Unverified(modules, before), Preset(before, modules))
  {
    UnverifiedAfterPreset(before, modules, modules);
  }

  /** The loop over the modules has left the versions it should. */
  ghost predicate PassVersions(before: Statuses, modules: seq<Module>, h0: seq<Statuses>, had: seq<Check>,
                               h: seq<Statuses>, checks: seq<Check>)
  {
    had <= checks && h0 < h && AllBetween(Preset(before, modules), had, h[|h0|..], checks)
  }

  lemma WorkingMeans(before: Statuses, modules: seq<Module>, h0: History, had: seq<Check>, h: History,
                     checks: seq<Check>)
    requires AllBacked(h0, had) && PassVersions(before, modules, h0, had, h, checks)
    ensures AllBacked(h, checks) && Pass(before, Some(modules), LatestOf(h), checks[|had|..])
    ensures LatestOf(h).Keys == Listed(modules)
  {
    var start := Preset(before, modules);
    MoreBacked(h0, had, checks);
    BetweenIsBacked(start, had, h[|h0|..], checks);
    assert h == h0 + h[|h0|..];
    assert LatestOf(h) in h[|h0|..] by { assert LatestOf(h) == h[|h0|..][|h| - 1 - |h0|]; }
    assert Between(start, had, LatestOf(h), checks);
    ChecksPass(before, modules, LatestOf(h), checks[|had|..]);
  }

  /** A version of this pass in which all is verified means that every listed module was checked with that answer. */
  lemma FreshReadIsSound(before: Statuses, modules: seq<Module>, h0: seq<Statuses>, had: seq<Check>, h: seq<Statuses>,
                         checks: seq<Check>, i: nat)
    requires PassVersions(before, modules, h0, had, h, checks) && |h0| <= i < |h| && AllVerified(h[i])
    ensures h[i].Keys == Listed(modules) && AllChecked(modules, checks)
  {
    assert h[i] == h[|h0|..][i - |h0|];
    assert Between(Preset(before, modules), had, h[i], checks);
    BackedMeansChecked(h[i], modules, checks);
  }

  class PreflightReconciler {
    /** The versions in the API server. */
    var history: History
    /** The copy being worked on, and the number of the version it is based on. */
    var pv: Statuses
    var base: nat
    /** The fate of each write that is not refused. */
    const fate: nat -> Write
    var writes: nat
    /** The calls of PreflightUpgradeCheck made so far, with their answers. */
    ghost var checks: seq<Check>

    ghost predicate Valid()
      reads this
    {
      AllBacked(history, checks)
    }

    function Stored(): Statuses
      reads this
    {
      LatestOf(history)
    }

    /** All writes from now on are accepted. */
    ghost predicate Reliable()
    {
      forall n :: fate(n) == Accepted
    }

    predicate Current()
      reads this
    {
      base == |history| - 1
    }

    /** The stored status is the copy. */
    predicate Synced()
      reads this
    {
      Current() && Stored() == pv
    }

    constructor (fate: nat -> Write)
      ensures Valid() && history == [map[]] && checks == [] && this.fate == fate && Synced() && writes == 0
    {
      history, pv, base, writes, checks := [map[]], map[], 0, 0, [];
      this.fate := fate;
    }

    /** Status().Update. */
    method UpdateStatus() returns (ok: bool)
      modifies this`history, this`base, this`writes
      ensures writes == old(writes) + 1
      ensures ok <==> old(Current()) && fate(old(writes)) == Accepted
      ensures history == old(history) + if old(Current()) && fate(old(writes)) != Lost then [pv] else []
      ensures base == if ok then |history| - 1 else old(base)
    {
      ok := false;
      if base == |history| - 1 {
        match fate(writes) {
          case Accepted =>
            history := WithVersion(history, pv);
            base := |history| - 1;
            ok := true;
          case AcceptedUnheard =>
            history := WithVersion(history, pv);
          case Lost =>
        }
      }
      writes := writes + 1;
    }

    /** PreflightPresetStatuses. */
    method PresetStatuses(existing: set<string>, newModules: set<string>) returns (ok: bool)
      modifies this`pv, this`history, this`base, this`writes
      ensures pv == WithNew(Only(old(pv), existing), newModules)
      ensures ok <==> old(Current()) && fate(old(writes)) == Accepted
      ensures history == old(history) + if old(Current()) && fate(old(writes)) != Lost then [pv] else []
      ensures ok ==> Current()
      ensures writes == old(writes) + 1
    {
      pv := AddNew(Only(pv, existing), newModules);
      ok := UpdateStatus();
    }

    /** PreflightSetVerificationStatus. */
    method SetVerificationStatus(name: string, verified: bool) returns (ok: bool)
      modifies this`pv, this`history, this`base, this`writes
      ensures name !in old(pv) ==>
        !ok && pv == old(pv) && history == old(history) && base == old(base) && writes == old(writes)
      ensures name in old(pv) ==>
        && pv == old(pv)[name := old(pv)[name].(verified := verified)]
        && (ok <==> old(Current()) && fate(old(writes)) == Accepted)
        && history == old(history) + (if old(Current()) && fate(old(writes)) != Lost then [pv] else [])
        && base == (if ok then |history| - 1 else old(base)) && writes == old(writes) + 1
    {
      if name !in pv {
        return false;
      }
      pv := pv[name := pv[name].(verified := verified)];
      ok := UpdateStatus();
    }

    /** PreflightSetVerificationStage. */
    method SetVerificationStage(name: string, stage: Stage) returns (ok: bool)
      modifies this`pv, this`history, this`base, this`writes
      ensures name !in old(pv) ==>
        !ok && pv == old(pv) && history == old(history) && base == old(base) && writes == old(writes)
      ensures name in old(pv) ==>
        && pv == old(pv)[name := old(pv)[name].(stage := stage)]
        && (ok <==> old(Current()) && fate(old(writes)) == Accepted)
        && history == old(history) + (if old(Current()) && fate(old(writes)) != Lost then [pv] else [])
        && base == (if ok then |history| - 1 else old(base)) && writes == old(writes) + 1
    {
      if name !in pv {
        return false;
      }
      pv := pv[name := pv[name].(stage := stage)];
      ok := UpdateStatus();
    }

    /** A stage change whose failure is only logged. */
    method NoteStage(name: string, stage: Stage)
      modifies this`pv, this`history, this`base, this`writes
      ensures OnlyStage(old(pv), pv, name)
      ensures old(history) <= history && AllStageOf(old(pv), history[|old(history)|..], name)
      ensures Reliable() && old(Synced()) ==> Synced()
    {
      var _ := SetVerificationStage(name, stage);
    }

    /** PreflightUpgradeCheck: the answer, and nothing but stages of that module changed on the way. */
    method UpgradeCheck(name: string, t: Trial) returns (verified: bool)
      modifies this
      ensures OnlyStage(old(pv), pv, name)
      ensures old(history) <= history && AllStageOf(old(pv), history[|old(history)|..], name)
      ensures Reliable() && old(Synced()) ==> Synced()
      ensures verified <==> Verifies(t)
      ensures checks == old(checks) + [Check(name, verified)]
    {
      ghost var (pv0, h0) := (pv, history);
      verified := false;
      if t.mappingFound {
        NoteStage(name, ImageStage);
        verified := VerifyImage(t.layers);
        if !verified {
          if t.shouldBuild {
            ghost var (pv1, h1) := (pv, history);
            NoteStage(name, BuildStage);
            MoreStages(pv0, pv1, pv, h0, h1, history, name);
            verified := t.build == SyncCompleted;
          }
          if t.shouldSign && (t.shouldBuild ==> verified) {
            ghost var (pv1, h1) := (pv, history);
            NoteStage(name, SignStage);
            MoreStages(pv0, pv1, pv, h0, h1, history, name);
            verified := t.sign == SyncCompleted;
          }
        }
      }
      checks := checks + [Check(name, verified)];
    }

    /** updatePreflightStatus. */
    method UpdatePreflightStatus(name: string, verified: bool)
      modifies this`pv, this`history, this`base, this`writes
      ensures name !in old(pv) ==> pv == old(pv) && history == old(history)
      ensures name in old(pv) ==>
        && pv == old(pv)[name := if verified then CRStatus(true, Done) else CRStatus(false, Requeued)]
        && old(history) <= history && AllAnswered(pv, history[|old(history)|..], name, verified)
        && (Reliable() && old(Current()) ==> Synced())
    {
      var _ := SetVerificationStatus(name, verified);
      var _ := SetVerificationStage(name, Settled(verified).stage);
    }

    /** presetModulesStatuses. */
    method PresetModulesStatuses(modules: seq<Module>) returns (ok: bool)
      modifies this`pv, this`history, this`base, this`writes
      ensures pv == Preset(old(pv), modules)
      ensures ok <==> old(Current()) && fate(old(writes)) == Accepted
      ensures history == old(history) + if old(Current()) && fate(old(writes)) != Lost then [pv] else []
      ensures ok ==> Current()
      ensures writes == old(writes) + 1
    {
      var existing, newModules := ListNames(modules, pv.Keys);
      ok := PresetStatuses(existing, newModules);
    }

    /** getModulesToCheck. */
    method GetModulesToCheck(modules: seq<Module>) returns (r: Option<seq<Module>>)
      modifies this`pv, this`history, this`base, this`writes
      ensures pv == Preset(old(pv), modules)
      ensures r.Some? <==> old(Current()) && fate(old(writes)) == Accepted
      ensures history == old(history) + if old(Current()) && fate(old(writes)) != Lost then [pv] else []
      ensures r.Some? ==> r.value == Unverified(modules, pv) && Synced()
    {
      var ok := PresetModulesStatuses(modules);
      if !ok {
        return None;
      }
      var toCheck := Filter(modules, pv);
      return Some(toCheck);
    }

    /**
     Reconcile: start is the Get at its beginning, modules is None when they cannot be listed, readBack is the Get at
     the end of runPreflightValidation.
     */
    method RunPreflightValidation(start: Read, modules: Option<seq<Module>>, readBack: Read) returns (r: Option<bool>)
      requires Valid()
      modifies this
      ensures Valid() && old(history) <= history && old(checks) <= checks
      ensures Pass(old(Stored()), modules, Stored(), checks[|old(checks)|..])
      ensures r.Some? ==> (r.value <==> AllVerified(history[IndexOf(readBack, history)]))
      ensures r == Some(true) && IsFresh(readBack, |old(history)|) ==>
        && modules.Some? && AllChecked(modules.value, checks)
        && history[IndexOf(readBack, history)].Keys == Stored().Keys == Listed(modules.value)
      ensures !(modules.Some? && IsCurrent(start, old(history))) ==> r.None? && history == old(history)
      ensures Reliable() && modules.Some? && IsCurrent(start, old(history)) ==>
        && AllSettled(Unverified(modules.value, old(Stored())), Stored())
        && (EntriesSettled(Stored()) <==> KeptAreDone(old(Stored()), modules.value))
        && (r.None? <==> readBack.ReadFails?)
    {
      if start.ReadFails? || modules.None? {
        NothingDone(history, modules, checks);
        return None;
      }
      ghost var (h0, had) := (history, checks);
      base := IndexOf(start, history);
      pv := history[base];
      var list := GetModulesToCheck(modules.value);
      if list.None? {
        PresetOnly(h0, modules.value, history, checks, pv);
        return None;
      }
      PresetOnly(h0, modules.value, history, checks, pv);
      ListedAfterPreset(LatestOf(h0), modules.value);
      CheckModules(h0, list.value);
      WorkingMeans(LatestOf(h0), modules.value, h0, had, history, checks);
      if Reliable() {
        EntriesEndSettled(LatestOf(h0), modules.value, Stored(), checks[|had|..]);
      }
      if readBack.ReadFails? {
        return None;
      }
      var completed := AllTrue(history[IndexOf(readBack, history)]);
      if completed && IsFresh(readBack, |h0|) {
        FreshReadIsSound(LatestOf(h0), modules.value, h0, had, history, checks, IndexOf(readBack, history));
      }
      return Some(completed);
    }

    /** What holds between two rounds of the loop over the modules to check, begun on start with the checks had. */
    ghost predicate Working(start: Statuses, had: seq<Check>, h0: seq<Statuses>, done: seq<Module>)
      reads this
    {
      && Between(start, had, pv, checks)
      && h0 < history && AllBetween(start, had, history[|h0|..], checks)
      && (Reliable() ==> Synced())
      && AllSettled(done, pv)
    }

    /** The loop over the modules to check. */
    method CheckModules(ghost h0: seq<Statuses>, toCheck: seq<Module>)
      requires Backed(pv, checks) && Synced() && history == h0 + [pv]
      requires Checkable(toCheck, pv)
      modifies this
      ensures Working(old(pv), old(checks), h0, toCheck)
    {
      ghost var (start, had) := (pv, checks);
      assert history[|h0|..] == [pv];
      var i := 0;
      while i < |toCheck|
        invariant 0 <= i <= |toCheck|
        invariant Working(start, had, h0, toCheck[..i])
      {
        assert toCheck[..i + 1] == toCheck[..i] + [toCheck[i]];
        CheckModule(start, had, h0, toCheck[..i], toCheck[i]);
        i := i + 1;
      }
      assert toCheck[..|toCheck|] == toCheck;
    }

    /** One round of that loop. */
    method CheckModule(ghost start: Statuses, ghost had: seq<Check>, ghost h0: seq<Statuses>, ghost done: seq<Module>,
                       m: Module)
      requires m.name in start && !start[m.name].verified
      requires Working(start, had, h0, done)
      modifies this
      ensures Working(start, had, h0, done + [m])
    {
      hide Between, AllBetween, AllSettled, AllStageOf, AllAnswered, Verifies;
      ghost var (pv0, h1, checks0) := (pv, history, checks);
      InBetween(start, had, pv, checks);
      var verified := UpgradeCheck(m.name, m.trial);
      ghost var h2 := history;
      UpdatePreflightStatus(m.name, verified);
      ghost var (older, staged, answered) := (h1[|h0|..], h2[|h1|..], history[|h2|..]);
      RoundKeeps(start, had, pv0, older, staged, answered, checks0, m.name, verified, pv);
      assert history[|h0|..] == older + staged + answered;
      SettlesOneMore(done, m, pv0, pv);
    }
  }

  // ---- Whole runs --------------------------------------------------------------------------------------

  /** versions is the number of versions there were before the pass. */
  datatype PassRecord = PassRecord(versions: nat, modules: Option<seq<Module>>, after: Statuses, checked: seq<Check>)

  /** The records are of passes that follow each other, the first of which starts from the statuses given. */
  ghost predicate Run(start: Statuses, records: seq<PassRecord>)
    decreases |records|
  {
    records == [] ||
    (Pass(start, records[0].modules, records[0].after, records[0].checked) && Run(records[0].after, records[1..]))
  }

  ghost function Last(start: Statuses, records: seq<PassRecord>): Statuses {
    if records == [] then start else records[|records| - 1].after
  }

  lemma {:induction false} RunGrows(start: Statuses, records: seq<PassRecord>, r: PassRecord)
    requires Run(start, records) && Pass(Last(start, records), r.modules, r.after, r.checked)
    ensures Run(start, records + [r])
    decreases |records|
  {
    if records != [] {
      assert (records + [r])[1..] == records[1..] + [r];
      RunGrows(records[0].after, records[1..], r);
    }
  }

  /** A module recorded as verified stays so and is never checked again, for as long as no listing lacks it. */
  lemma {:induction false} VerifiedStays(start: Statuses, records: seq<PassRecord>, n: string)
    requires Run(start, records) && n in start && start[n].verified
    requires forall r :: r in records && r.modules.Some? ==> n in Listed(r.modules.value)
    ensures forall r :: r in records ==> n in r.after && r.after[n] == start[n] && Untouched(n, r.checked)
    decreases |records|
  {
    if records != [] {
      assert records[0] in records;
      VerifiedStays(records[0].after, records[1..], n);
      assert forall r :: r in records ==> r == records[0] || r in records[1..];
    }
  }

  /** What one pass of many is given. */
  datatype PassInput = PassInput(start: Read, modules: Option<seq<Module>>, readBack: Read)

  /** Reported completions are sound where the last read of the pass returned a version of that pass. */
  ghost predicate SoundCompletion(input: PassInput, result: Option<bool>, record: PassRecord, checks: seq<Check>) {
    result == Some(true) && IsFresh(input.readBack, record.versions) ==>
      input.modules.Some? && AllChecked(input.modules.value, checks)
  }

  /**
   Any number of passes make a run; a pass that reports completion after a fresh read does so with every listed module
   checked; and if writes are accepted and all entries were settled, all entries end settled.
   */
  method RunPasses(p: PreflightReconciler, inputs: seq<PassInput>)
    returns (results: seq<Option<bool>>, ghost records: seq<PassRecord>)
    requires p.Valid()
    modifies p
    ensures p.Valid() && |results| == |records| == |inputs|
    ensures Run(old(p.Stored()), records) && p.Stored() == Last(old(p.Stored()), records)
    ensures forall i :: 0 <= i < |inputs| ==> SoundCompletion(inputs[i], results[i], records[i], p.checks)
    ensures p.Reliable() && EntriesSettled(old(p.Stored())) ==> EntriesSettled(p.Stored())
  {
    hide EntriesSettled, Run, AllBacked;
    results, records := [], [];
    EmptyRun(p.Stored());
    for i := 0 to |inputs|
      invariant p.Valid() && |results| == |records| == i
      invariant Run(old(p.Stored()), records) && p.Stored() == Last(old(p.Stored()), records)
      invariant forall j :: 0 <= j < i ==> SoundCompletion(inputs[j], results[j], records[j], p.checks)
      invariant p.Reliable() && EntriesSettled(old(p.Stored())) ==> EntriesSettled(p.Stored())
    {
      ghost var (had, versions, before) := (p.checks, |p.history|, p.Stored());
      var r := p.RunPreflightValidation(inputs[i].start, inputs[i].modules, inputs[i].readBack);
      ghost var record := PassRecord(versions, inputs[i].modules, p.Stored(), p.checks[|had|..]);
      RunGrows(old(p.Stored()), records, record);
      if inputs[i].modules.Some? { SettledAreDone(before, inputs[i].modules.value); }
      results, records := results + [r], records + [record];
    }
  }

  lemma EmptyRun(start: Statuses)
    ensures Run(start, [])
  {
  }

  lemma SettledAreDone(a: Statuses, modules: seq<Module>)
    ensures EntriesSettled(a) ==> KeptAreDone(a, modules)
  {
  }

  // ---- Where the conditions are needed -------------------------------------------------------------------

  /** The status of a verified module is stored and the write of its stage is lost: the entry is (True, not Done). */
  method StageWriteLost(m: Module) returns (p: PreflightReconciler)
    requires !m.deleting
    ensures fresh(p) && p.Stored() == map[m.name := CRStatus(true, ImageStage)]
  {
    p := new PreflightReconciler(n => if n == 2 then Lost else Accepted);
    var _ := p.PresetModulesStatuses([m]);
    assert m in [m];
    assert p.pv == map[m.name := CRStatus(false, ImageStage)];
    var _ := p.SetVerificationStatus(m.name, true);
    var _ := p.SetVerificationStage(m.name, Done);
  }

  /** Such an entry stays as it is in every later pass that lists the module, even if all writes are accepted then. */
  lemma HalfDoneStays(before: Statuses, modules: seq<Module>, after: Statuses, checked: seq<Check>, n: string)
    requires Pass(before, Some(modules), after, checked) && n in Listed(modules)
    requires n in before && before[n].verified && before[n].stage != Done
    ensures n in after && after[n] == before[n] && !EntriesSettled(after)
  {
  }

  /** A last read that still returns the empty status reports completion, although the module did not verify. */
  method StaleReadCompletes(m: Module) returns (p: PreflightReconciler, r: Option<bool>)
    requires !m.deleting && !Verifies(m.trial)
    ensures fresh(p) && r == Some(true) && m.name in p.Stored() && !p.Stored()[m.name].verified
  {
    p := new PreflightReconciler(_ => Accepted);
    UnverifiedHas([m], map[], m);
    r := p.RunPreflightValidation(Latest, Some([m]), Version(0));
    assert m.name in (set d | d in Unverified([m], map[]) :: d.name);
    assert SettledBy(Unverified([m], map[]), p.Stored()[m.name], m.name);
  }
}
