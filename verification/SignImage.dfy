/**
 The signing tool (cmd/signimage/signimage.go): walk the layers top-down, extract and sign the first entry met for each
 requested path, append one layer with the signed files.
 */
module SignImage {
  import opened Base
  import opened Text
  import opened Paths
  import opened Registry
  import opened Overlay

  /**
   What the tool meets in one run. sign-file turns the bytes of a file into signed ones or fails; tempDir is the
   directory of the extracted files; refused are the entries whose extraction the file system refuses, unopened the
   layers that cannot be opened, and broken says after how many entries the stream of a layer fails.
   */
  datatype Machine = Machine(
    signFile: Bytes -> Option<Bytes>, tempDir: Path, refused: set<Pos>, unopened: set<nat>, broken: map<nat, nat>)

  /** The image as the walk gets to see it: a layer whose stream fails is taken to end there. */
  function Seen(image: Image, m: Machine): (seen: Image)
    ensures Prefixes(seen, image)
  {
    seq(|image|, l requires 0 <= l < |image| => SeenLayer(image[l], l, m))
  }

  function SeenLayer(layer: Layer, l: nat, m: Machine): Layer {
    if l in m.broken && m.broken[l] <= |layer| then layer[..m.broken[l]] else layer
  }

  /** Every layer of seen is the beginning of the layer of the image. */
  ghost predicate Prefixes(seen: Image, image: Image) {
    |seen| == |image| && forall l :: 0 <= l < |image| ==> seen[l] <= image[l]
  }

  /** A value of kmodsToSign: "not found", or the temporary file the module is in. */
  datatype Kmod = NotFound | Extracted(file: Path)

  datatype Outcome =
    | UsageExit               // an argument is missing: exit status 0, nothing appended or pushed
    | Died(status: int)
    | Appended(image: Image)

  // ---- The entry the walk picks ------------------------------------------------------------------------

  /** The first entry for path p among the first m of a layer. */
  function FirstIn(layer: Layer, m: nat, p: Path): (first: Option<nat>)
    requires m <= |layer|
    ensures first.Some? ==> first.value < m && PathOf(layer[first.value]) == p
    ensures first.Some? ==> forall i :: 0 <= i < first.value ==> PathOf(layer[i]) != p
    ensures first.None? ==> forall i :: 0 <= i < m ==> PathOf(layer[i]) != p
  {
    if m == 0 then None
    else
      var earlier := FirstIn(layer, m - 1, p);
      if earlier.Some? then earlier
      else if PathOf(layer[m - 1]) == p then Some(m - 1) else None
  }

  /** The pick among the layers from number i up: the first entry for p of the topmost layer that has one. */
  function Pick(image: Image, i: nat, p: Path): (pick: Option<Pos>)
    requires i <= |image|
    ensures pick.Some? ==> InImage(image, pick.value) && i <= pick.value.layer && PathOf(At(image, pick.value)) == p
    decreases |image| - i
  {
    if i == |image| then None
    else
      var above := Pick(image, i + 1, p);
      if above.Some? then above
      else
        var here := FirstIn(image[i], |image[i]|, p);
        if here.Some? then Some(Pos(i, here.value)) else None
  }

  /** The entry at pos is for path p, and no entry of a layer above it or before it in its layer is. */
  ghost predicate IsFirstMet(image: Image, p: Path, pos: Pos) {
    && InImage(image, pos) && PathOf(At(image, pos)) == p
    && (forall x :: 0 <= x < pos.entry ==> PathOf(image[pos.layer][x]) != p)
    && forall l, x :: pos.layer < l < |image| && 0 <= x < |image[l]| ==> PathOf(image[l][x]) != p
  }

  /** The pick is the entry met first, layers from the top and entries from the front; there is one if any entry is. */
  lemma {:induction false} PickMeans(image: Image, i: nat, p: Path)
    requires i <= |image|
    ensures Pick(image, i, p).Some? ==> IsFirstMet(image, p, Pick(image, i, p).value)
    ensures Pick(image, i, p).None? ==>
      forall l, x :: i <= l < |image| && 0 <= x < |image[l]| ==> PathOf(image[l][x]) != p
    decreases |image| - i
  {
    if i < |image| {
      PickMeans(image, i + 1, p);
      hide PathOf;
    }
  }

  lemma FirstMetIsPicked(image: Image, p: Path, pos: Pos)
    requires IsFirstMet(image, p, pos)
    ensures Pick(image, 0, p) == Some(pos)
  {
    PickMeans(image, 0, p);
    hide PathOf, Pick;
    assert PathOf(image[pos.layer][pos.entry]) == p;
    var picked := Pick(image, 0, p).value;
    assert PathOf(image[picked.layer][picked.entry]) == p;
  }

  /** The pick when the walk has done the layers above i and the first j entries of layer i. */
  function PickSoFar(image: Image, i: nat, j: nat, p: Path): (pick: Option<Pos>)
    requires i < |image| && j <= |image[i]|
    ensures pick.Some? ==> InImage(image, pick.value) && PathOf(At(image, pick.value)) == p
  {
    var above := Pick(image, i + 1, p);
    if above.Some? then above
    else
      var here := FirstIn(image[i], j, p);
      if here.Some? then Some(Pos(i, here.value)) else None
  }

  lemma {:induction false} FirstStays(layer: Layer, j: nat, m: nat, p: Path)
    requires j <= m <= |layer| && FirstIn(layer, j, p).Some?
    ensures FirstIn(layer, m, p) == FirstIn(layer, j, p)
  {
    if j < m { FirstStays(layer, j, m - 1, p); }
  }

  lemma {:induction false} PickStays(image: Image, i: nat, k: nat, p: Path)
    requires k <= i <= |image| && Pick(image, i, p).Some?
    ensures Pick(image, k, p) == Pick(image, i, p)
    decreases i - k
  {
    if k < i { PickStays(image, i, k + 1, p); }
  }

  lemma PickSoFarStays(image: Image, i: nat, j: nat, p: Path)
    requires i < |image| && j <= |image[i]| && PickSoFar(image, i, j, p).Some?
    ensures Pick(image, 0, p) == PickSoFar(image, i, j, p)
  {
    if Pick(image, i + 1, p).Some? {
      PickStays(image, i + 1, 0, p);
    } else {
      FirstStays(image[i], j, |image[i]|, p);
      PickStays(image, i, 0, p);
    }
  }

  // ---- The walk -----------------------------------------------------------------------------------------

  /**
   Where an entry is extracted to: its name below the temporary directory, unless its ".." elements lead out of that.
   */
  function Destination(m: Machine, e: Entry): Path {
    Resolve(Split(e.name, '/'), m.tempDir)
  }

  /** What extracting and signing the entry yields. */
  function SignedAt(image: Image, pos: Pos, m: Machine): Option<Bytes>
    requires InImage(image, pos)
  {
    if pos in m.refused then None else m.signFile(At(image, pos).data)
  }

  /** The same for the entry picked for a requested path. */
  function SignedOf(image: Image, k: string, m: Machine): Option<Bytes> {
    var pick := Pick(image, 0, Components(k));
    if pick.None? then None else SignedAt(image, pick.value, m)
  }

  function DestinationOf(image: Image, k: string, m: Machine): Option<Path> {
    var pick := Pick(image, 0, Components(k));
    if pick.None? then None else Some(Destination(m, At(image, pick.value)))
  }

  /** What the map holds for a path whose pick so far is `pick`. */
  ghost predicate Holds(kmod: Kmod, image: Image, pick: Option<Pos>, m: Machine) {
    match pick
    case None => kmod == NotFound
    case Some(pos) =>
      InImage(image, pos) && SignedAt(image, pos, m).Some? && kmod == Extracted(Destination(m, At(image, pos)))
  }

  /** Some requested path's entry cannot be extracted and signed. */
  ghost predicate Unsignable(image: Image, requested: set<string>, m: Machine) {
    exists k :: k in requested && Pick(image, 0, Components(k)).Some? && SignedOf(image, k, m).None?
  }

  ghost predicate AllOpen(image: Image, m: Machine) {
    forall l :: 0 <= l < |image| ==> l !in m.unopened
  }

  /** The map agrees with the picks so far. */
  ghost predicate Tracks(kmods: map<string, Kmod>, image: Image, i: nat, j: nat, m: Machine)
    requires i < |image| && j <= |image[i]|
  {
    forall k :: k in kmods ==> Holds(kmods[k], image, PickSoFar(image, i, j, Components(k)), m)
  }

  ghost predicate TracksLayers(kmods: map<string, Kmod>, image: Image, i: nat, m: Machine)
    requires i <= |image|
  {
    forall k :: k in kmods ==> Holds(kmods[k], image, Pick(image, i, Components(k)), m)
  }

  /** File d has the signed form of an entry picked for one of the keys and extracted to d. */
  ghost predicate FromPick(d: Path, data: Bytes, keys: set<string>, image: Image, m: Machine) {
    exists k :: k in keys && DestinationOf(image, k, m) == Some(d) && SignedOf(image, k, m) == Some(data)
  }

  ghost predicate FilesFromPicks(files: map<Path, Bytes>, keys: set<string>, image: Image, m: Machine) {
    forall d :: d in files ==> FromPick(d, files[d], keys, image, m)
  }

  ghost predicate AllStored(kmods: map<string, Kmod>, files: map<Path, Bytes>) {
    forall k :: k in kmods && kmods[k].Extracted? ==> kmods[k].file in files
  }

  ghost predicate AllCanonical(names: set<string>) {
    forall x :: x in names ==> CanonicalisePath(x) == x
  }

  /** The map and the temporary files of the tool. */
  datatype Work = Work(kmods: map<string, Kmod>, files: map<Path, Bytes>)

  /** What processFile does for one entry; once it has failed, the tool dies. */
  ghost predicate Processed(before: Work, entry: Entry, refused: bool, m: Machine, after: Work, ok: bool) {
    var canon := CanonicalisePath(entry.name);
    var wanted := canon in before.kmods && before.kmods[canon] == NotFound;
    var signed := if refused then None else m.signFile(entry.data);
    && ok == (wanted ==> signed.Some?)
    && after.kmods.Keys == before.kmods.Keys
    && (ok ==> after == if wanted then WithSigned(before, canon, Destination(m, entry), signed.value) else before)
  }

  function WithSigned(w: Work, k: string, file: Path, data: Bytes): Work {
    Work(w.kmods[k := Extracted(file)], w.files[file := data])
  }

  lemma KeyStep(image: Image, i: nat, j: nat, k: string)
    requires i < |image| && j < |image[i]| && CanonicalisePath(k) == k
    ensures var (was, p) := (PickSoFar(image, i, j, Components(k)), Components(k));
      PickSoFar(image, i, j + 1, p) ==
        if was.Some? then was else if CanonicalisePath(image[i][j].name) == k then Some(Pos(i, j)) else None
  {
    SameKey(image[i][j].name, k);
  }

  /** An entry that is still wanted when the walk comes to it is the one picked. */
  lemma PickedNow(image: Image, i: nat, j: nat, m: Machine, kmods: map<string, Kmod>, k: string)
    requires i < |image| && j < |image[i]| && k == CanonicalisePath(image[i][j].name) && CanonicalisePath(k) == k
    requires Tracks(kmods, image, i, j, m) && k in kmods && kmods[k] == NotFound
    ensures Pick(image, 0, Components(k)) == Some(Pos(i, j))
  {
    KeyStep(image, i, j, k);
    assert Holds(kmods[k], image, PickSoFar(image, i, j, Components(k)), m);
    PickSoFarStays(image, i, j + 1, Components(k));
  }

  /** One entry more: at most the key of its canonical name changes, and only from "not found". */
  lemma StepTracks(image: Image, i: nat, j: nat, m: Machine, before: Work, after: Work)
    requires i < |image| && j < |image[i]|
    requires AllCanonical(before.kmods.Keys) && Tracks(before.kmods, image, i, j, m)
    requires Processed(before, image[i][j], Pos(i, j) in m.refused, m, after, true)
    ensures Tracks(after.kmods, image, i, j + 1, m)
  {
    hide CanonicalisePath, Components, Destination, PickSoFar;
    forall k | k in after.kmods ensures Holds(after.kmods[k], image, PickSoFar(image, i, j + 1, Components(k)), m) {
      KeyStep(image, i, j, k);
      assert Holds(before.kmods[k], image, PickSoFar(image, i, j, Components(k)), m);
    }
  }

  /** A wanted entry that cannot be extracted and signed: the requested path it is picked for cannot be had. */
  lemma StepFails(image: Image, i: nat, j: nat, m: Machine, kmods: map<string, Kmod>, k: string)
    requires i < |image| && j < |image[i]| && k == CanonicalisePath(image[i][j].name) && CanonicalisePath(k) == k
    requires Tracks(kmods, image, i, j, m) && k in kmods && kmods[k] == NotFound
    requires SignedAt(image, Pos(i, j), m).None?
    ensures Unsignable(image, kmods.Keys, m)
  {
    PickedNow(image, i, j, m, kmods, k);
  }

  lemma OneFromPick(d: Path, data: Bytes, keys: set<string>, image: Image, m: Machine, k: string)
    requires k in keys && DestinationOf(image, k, m) == Some(d) && SignedOf(image, k, m) == Some(data)
    ensures FromPick(d, data, keys, image, m)
  {
  }

  /** The file written for one entry more is that of the pick; the others are as they were. */
  lemma StepFiles(image: Image, i: nat, j: nat, m: Machine, before: Work, after: Work)
    requires i < |image| && j < |image[i]|
    requires AllCanonical(before.kmods.Keys) && Tracks(before.kmods, image, i, j, m)
    requires Processed(before, image[i][j], Pos(i, j) in m.refused, m, after, true)
    requires FilesFromPicks(before.files, before.kmods.Keys, image, m) && AllStored(before.kmods, before.files)
    ensures FilesFromPicks(after.files, after.kmods.Keys, image, m) && AllStored(after.kmods, after.files)
  {
    hide CanonicalisePath, Components, Destination, Holds, PickSoFar, FromPick;
    var canon := CanonicalisePath(image[i][j].name);
    if canon in before.kmods && before.kmods[canon] == NotFound {
      PickedNow(image, i, j, m, before.kmods, canon);
      var d := Destination(m, image[i][j]);
      OneFromPick(d, after.files[d], after.kmods.Keys, image, m, canon);
      forall x | x in after.files && x != d ensures FromPick(x, after.files[x], after.kmods.Keys, image, m) {
        assert FromPick(x, before.files[x], before.kmods.Keys, image, m);
      }
    }
  }

  lemma LayerTracked(kmods: map<string, Kmod>, image: Image, i: nat, m: Machine)
    requires i < |image|
    ensures Tracks(kmods, image, i, 0, m) <==> TracksLayers(kmods, image, i + 1, m)
    ensures Tracks(kmods, image, i, |image[i]|, m) <==> TracksLayers(kmods, image, i, m)
  {
    assert forall p :: PickSoFar(image, i, 0, p) == Pick(image, i + 1, p);
    assert forall p :: PickSoFar(image, i, |image[i]|, p) == Pick(image, i, p);
  }

  ghost predicate AllMissing(kmods: map<string, Kmod>) {
    forall k :: k in kmods ==> kmods[k] == NotFound
  }

  lemma NothingTracked(kmods: map<string, Kmod>, image: Image, m: Machine)
    requires AllMissing(kmods)
    ensures TracksLayers(kmods, image, |image|, m)
    ensures FilesFromPicks(map[], kmods.Keys, image, m) && AllStored(kmods, map[])
  {
  }

  lemma TrackedMeansSignable(kmods: map<string, Kmod>, image: Image, m: Machine)
    requires TracksLayers(kmods, image, 0, m)
    ensures !Unsignable(image, kmods.Keys, m)
  {
    forall k | k in kmods && Pick(image, 0, Components(k)).Some? ensures SignedOf(image, k, m).Some? {
      assert Holds(kmods[k], image, Pick(image, 0, Components(k)), m);
    }
  }

  class Signer {
    const machine: Machine
    var kmodsToSign: map<string, Kmod>
    /** The extracted files, signed or about to be. */
    var files: map<Path, Bytes>

    ghost function Now(): Work
      reads this
    {
      Work(kmodsToSign, files)
    }

    /** The files are those of picks, also where two picks were extracted to the same file. */
    ghost predicate Stores(image: Image)
      reads this
    {
      FilesFromPicks(files, kmodsToSign.Keys, image, machine) && AllStored(kmodsToSign, files)
    }

    constructor (machine: Machine, kmodsToSign: map<string, Kmod>)
      ensures this.machine == machine && this.kmodsToSign == kmodsToSign && files == map[]
    {
      this.machine := machine;
      this.kmodsToSign := kmodsToSign;
      files := map[];
    }

    /** processFile, with a non-empty list of files. */
    method ProcessFile(entry: Entry, refused: bool) returns (ok: bool)
      modifies this
      ensures Processed(old(Now()), entry, refused, machine, Now(), ok)
    {
      var canon := CanonicalisePath(entry.name);
      if canon in kmodsToSign && kmodsToSign[canon] == NotFound {
        if refused {
          return false;
        }
        var file := Destination(machine, entry);
        files := files[file := entry.data];
        kmodsToSign := kmodsToSign[canon := Extracted(file)];
        match machine.signFile(files[file]) {
          case None => return false;
          case Some(signed) => files := files[file := signed];
        }
      }
      return true;
    }

    /** The callback for entry number j of layer i, of what the walk gets to see. */
    method WalkEntry(entry: Entry, ghost seen: Image, i: nat, j: nat) returns (ok: bool)
      requires i < |seen| && j < |seen[i]| && entry == seen[i][j] && AllCanonical(kmodsToSign.Keys)
      requires Tracks(kmodsToSign, seen, i, j, machine) && Stores(seen)
      modifies this
      ensures kmodsToSign.Keys == old(kmodsToSign.Keys)
      ensures if ok then Tracks(kmodsToSign, seen, i, j + 1, machine) && Stores(seen)
              else Unsignable(seen, kmodsToSign.Keys, machine)
    {
      hide Tracks, FilesFromPicks, AllStored, CanonicalisePath, Destination, Unsignable;
      ghost var before := Now();
      ok := ProcessFile(entry, Pos(i, j) in machine.refused);
      if ok {
        StepTracks(seen, i, j, machine, before, Now());
        StepFiles(seen, i, j, machine, before, Now());
      } else {
        StepFails(seen, i, j, machine, before.kmods, CanonicalisePath(entry.name));
      }
    }

    /**
     The inner loop of WalkFilesInImage: the entries of layer i in order, up to its end or a failure of its stream.
     */
    method WalkLayer(image: Image, i: nat) returns (ok: bool)
      requires i < |image| && AllCanonical(kmodsToSign.Keys)
      requires var seen := Seen(image, machine); TracksLayers(kmodsToSign, seen, i + 1, machine) && Stores(seen)
      modifies this
      ensures kmodsToSign.Keys == old(kmodsToSign.Keys)
      ensures var seen := Seen(image, machine);
        if ok then TracksLayers(kmodsToSign, seen, i, machine) && Stores(seen)
        else Unsignable(seen, kmodsToSign.Keys, machine)
    {
      hide Tracks, TracksLayers, Unsignable, CanonicalisePath, FilesFromPicks, AllStored;
      ghost var seen := Seen(image, machine);
      assert seen[i] == SeenLayer(image[i], i, machine);
      var j := 0;
      LayerTracked(kmodsToSign, seen, i, machine);
      while j < |image[i]|
        invariant 0 <= j <= |seen[i]|
        invariant kmodsToSign.Keys == old(kmodsToSign.Keys)
        invariant Tracks(kmodsToSign, seen, i, j, machine) && Stores(seen)
      {
        if i in machine.broken && machine.broken[i] == j {
          break;
        }
        ok := WalkEntry(image[i][j], seen, i, j);
        if !ok {
          return;
        }
        j := j + 1;
      }
      assert j == |seen[i]|;
      LayerTracked(kmodsToSign, seen, i, machine);
      ok := true;
    }

    /** WalkFilesInImage with processFile as its callback: the layers from the top down. */
    method WalkFilesInImage(image: Image) returns (ok: bool)
      requires AllCanonical(kmodsToSign.Keys) && AllMissing(kmodsToSign) && files == map[]
      modifies this
      ensures kmodsToSign.Keys == old(kmodsToSign.Keys)
      ensures ok == (AllOpen(image, machine) && !Unsignable(Seen(image, machine), kmodsToSign.Keys, machine))
      ensures ok ==> TracksLayers(kmodsToSign, Seen(image, machine), 0, machine) && Stores(Seen(image, machine))
    {
      hide Holds, FromPick;
      ghost var seen := Seen(image, machine);
      var i := |image|;
      NothingTracked(kmodsToSign, seen, machine);
      while i > 0
        invariant 0 <= i <= |image|
        invariant kmodsToSign.Keys == old(kmodsToSign.Keys)
        invariant TracksLayers(kmodsToSign, seen, i, machine) && Stores(seen)
        invariant forall l :: i <= l < |image| ==> l !in machine.unopened
      {
        i := i - 1;
        if i in machine.unopened {
          return false;
        }
        ok := WalkLayer(image, i);
        if !ok {
          return;
        }
      }
      ok := true;
      TrackedMeansSignable(kmodsToSign, seen, machine);
    }
  }

  // ---- main ----------------------------------------------------------------------------------------------

  /** One regular file per requested path, each of which has a pick that can be signed. */
  ghost predicate ListsRequested(layer: Layer, image: Image, requested: set<string>, m: Machine) {
    && (forall i, j :: 0 <= i < j < |layer| ==> layer[i].name != layer[j].name)
    && (forall k :: k in requested ==> exists i :: 0 <= i < |layer| && layer[i].name == k)
    && (forall i :: 0 <= i < |layer| ==> layer[i].kind == Regular && layer[i].name in requested)
    && (forall k :: k in requested ==> SignedOf(image, k, m).Some?)
  }

  /** The layer as the tool writes it: the contents of the temporary files the picks were extracted to. */
  ghost predicate WrittenFrom(layer: Layer, image: Image, requested: set<string>, m: Machine, files: map<Path, Bytes>) {
    && ListsRequested(layer, image, requested, m) && FilesFromPicks(files, requested, image, m)
    && forall i :: 0 <= i < |layer| ==>
         var d := DestinationOf(image, layer[i].name, m);
         d.Some? && d.value in files && layer[i].data == files[d.value]
  }

  /** The layer as it should be: the signed form of the entry picked for each requested path. */
  ghost predicate SignedLayer(layer: Layer, image: Image, requested: set<string>, m: Machine) {
    && ListsRequested(layer, image, requested, m)
    && forall i :: 0 <= i < |layer| ==> SignedOf(image, layer[i].name, m) == Some(layer[i].data)
  }

  /** The new image is the old one with one layer more, written from temporary files. */
  ghost predicate IsWritten(signed: Image, image: Image, requested: set<string>, m: Machine) {
    exists layer, files :: signed == image + [layer] && WrittenFrom(layer, Seen(image, m), requested, m, files)
  }

  /** The new image is the old one with one layer more, which holds exactly the requested files, signed. */
  ghost predicate IsSigned(signed: Image, image: Image, requested: set<string>, m: Machine) {
    exists layer :: signed == image + [layer] && SignedLayer(layer, Seen(image, m), requested, m)
  }

  /** strings.Split of the -filestosign argument. */
  function Requested(filesList: string): set<string> {
    set x | x in Split(filesList, ':')
  }

  ghost predicate AllFound(image: Image, requested: set<string>) {
    forall k :: k in requested ==> Pick(image, 0, Components(k)).Some?
  }

  /** What the tool does with a list of files and an image, which is None when it could not be pulled. */
  ghost predicate Produces(filesList: string, pulled: Option<Image>, m: Machine, outcome: Outcome) {
    var requested := Requested(filesList);
    if filesList == "" then outcome == UsageExit
    else if !AllCanonical(requested) then outcome == Died(9)
    else if pulled.None? then outcome == Died(3)
    else if !AllOpen(pulled.value, m) || Unsignable(Seen(pulled.value, m), requested, m) then outcome == Died(9)
    else if !AllFound(Seen(pulled.value, m), requested) then outcome == Died(4)
    else outcome.Appended? && IsWritten(outcome.image, pulled.value, requested, m)
  }

  /** The loop that enters the files to sign into kmodsToSign; None when one of them is not canonical. */
  method RegisterFiles(filesList: string) returns (kmods: Option<map<string, Kmod>>)
    ensures kmods.Some? <==> AllCanonical(Requested(filesList))
    ensures kmods.Some? ==> kmods.value.Keys == Requested(filesList) && AllMissing(kmods.value)
  {
    var names := Split(filesList, ':');
    var kmodsToSign: map<string, Kmod> := map[];
    var i := 0;
    while i < |names|
      invariant 0 <= i <= |names|
      invariant kmodsToSign.Keys == set x | x in names[..i]
      invariant AllCanonical(kmodsToSign.Keys) && AllMissing(kmodsToSign)
    {
      if CanonicalisePath(names[i]) != names[i] {
        assert names[i] in Requested(filesList);
        return None;
      }
      kmodsToSign := kmodsToSign[names[i] := NotFound];
      assert names[..i + 1] == names[..i] + [names[i]];
      i := i + 1;
    }
    assert names[..i] == names;
    return Some(kmodsToSign);
  }

  ghost predicate Copied(e: Entry, kmods: map<string, Kmod>, files: map<Path, Bytes>)
    requires AllStored(kmods, files)
  {
    e.kind == Regular && e.name in kmods && kmods[e.name].Extracted? && files[kmods[e.name].file] == e.data
  }

  lemma CopyOf(k: string, kmods: map<string, Kmod>, files: map<Path, Bytes>)
    requires AllStored(kmods, files) && k in kmods && kmods[k].Extracted?
    ensures Copied(Entry(k, Regular, files[kmods[k].file]), kmods, files)
  {
  }

  /** The layer has one entry for each file of the map, with what the temporary file holds for it. */
  ghost predicate Assembled(layer: Layer, kmods: map<string, Kmod>, files: map<Path, Bytes>)
    requires AllStored(kmods, files)
  {
    && (forall i, j :: 0 <= i < j < |layer| ==> layer[i].name != layer[j].name)
    && (forall k :: k in kmods ==> exists i :: 0 <= i < |layer| && layer[i].name == k)
    && (forall i :: 0 <= i < |layer| ==> Copied(layer[i], kmods, files))
  }

  /** The loop over kmodsToSign, in whatever order the map yields: the layer, or None when a file was not found. */
  method AssembleLayer(kmodsToSign: map<string, Kmod>, files: map<Path, Bytes>) returns (layer: Option<Layer>)
    requires AllStored(kmodsToSign, files)
    ensures layer.None? <==> exists k :: k in kmodsToSign && kmodsToSign[k] == NotFound
    ensures layer.Some? ==> Assembled(layer.value, kmodsToSign, files)
  {
    hide Copied;
    var todo := kmodsToSign.Keys;
    var entries: Layer := [];
    var missing := false;
    while todo != {}
      invariant todo <= kmodsToSign.Keys
      invariant missing <==> exists k :: k in kmodsToSign && k !in todo && kmodsToSign[k] == NotFound
      invariant forall i, j :: 0 <= i < j < |entries| ==> entries[i].name != entries[j].name
      invariant forall k :: k in kmodsToSign && k !in todo && kmodsToSign[k].Extracted? ==>
        exists i :: 0 <= i < |entries| && entries[i].name == k
      invariant forall i :: 0 <= i < |entries| ==> Copied(entries[i], kmodsToSign, files) && entries[i].name !in todo
      decreases |todo|
    {
      var k :| k in todo;
      todo := todo - {k};
      match kmodsToSign[k] {
        case NotFound =>
          missing := true;
        case Extracted(file) =>
          ghost var before := entries;
          entries := entries + [Entry(k, Regular, files[file])];
          assert forall i :: 0 <= i < |before| ==> entries[i] == before[i];
          assert entries[|before|].name == k;
          CopyOf(k, kmodsToSign, files);
      }
    }
    return if missing then None else Some(entries);
  }

  lemma MissingIsNotFound(kmods: map<string, Kmod>, image: Image, m: Machine)
    requires TracksLayers(kmods, image, 0, m) && exists k :: k in kmods && kmods[k] == NotFound
    ensures !AllFound(image, kmods.Keys)
  {
    var k :| k in kmods && kmods[k] == NotFound;
    assert Holds(kmods[k], image, Pick(image, 0, Components(k)), m);
  }

  lemma AssembledIsWritten(kmods: map<string, Kmod>, files: map<Path, Bytes>, image: Image, m: Machine, layer: Layer)
    requires TracksLayers(kmods, image, 0, m) && AllStored(kmods, files) && Assembled(layer, kmods, files)
    requires FilesFromPicks(files, kmods.Keys, image, m)
    ensures WrittenFrom(layer, image, kmods.Keys, m, files) && AllFound(image, kmods.Keys)
  {
    forall k | k in kmods ensures kmods[k].Extracted? && Pick(image, 0, Components(k)).Some? {
      var i :| 0 <= i < |layer| && layer[i].name == k;
      assert Copied(layer[i], kmods, files);
      ExtractedPick(kmods, image, m, k);
    }
    forall k | k in kmods ensures SignedOf(image, k, m).Some? && DestinationOf(image, k, m) == Some(kmods[k].file) {
      ExtractedPick(kmods, image, m, k);
    }
    forall i | 0 <= i < |layer|
      ensures layer[i].kind == Regular && layer[i].name in kmods && layer[i].data == files[kmods[layer[i].name].file]
    {
      assert Copied(layer[i], kmods, files);
    }
  }

  lemma ExtractedPick(kmods: map<string, Kmod>, image: Image, m: Machine, k: string)
    requires TracksLayers(kmods, image, 0, m) && k in kmods && kmods[k].Extracted?
    ensures Pick(image, 0, Components(k)).Some?
    ensures SignedOf(image, k, m).Some? && DestinationOf(image, k, m) == Some(kmods[k].file)
  {
    assert Holds(kmods[k], image, Pick(image, 0, Components(k)), m);
  }

  /** The tool's main from the check of its list of files to the append. */
  method SignAndAppend(filesList: string, pulled: Option<Image>, m: Machine) returns (outcome: Outcome)
    ensures Produces(filesList, pulled, m, outcome)
  {
    if filesList == "" {
      return UsageExit;
    }
    var kmods := RegisterFiles(filesList);
    if kmods.None? {
      return Died(9);
    }
    if pulled.None? {
      return Died(3);
    }
    var signer := new Signer(m, kmods.value);
    var ok := signer.WalkFilesInImage(pulled.value);
    if !ok {
      return Died(9);
    }
    var layer := AssembleLayer(signer.kmodsToSign, signer.files);
    if layer.None? {
      MissingIsNotFound(signer.kmodsToSign, Seen(pulled.value, m), m);
      return Died(4);
    }
    AssembledIsWritten(signer.kmodsToSign, signer.files, Seen(pulled.value, m), m, layer.value);
    assert IsWritten(pulled.value + [layer.value], pulled.value, Requested(filesList), m);
    return Appended(pulled.value + [layer.value]);
  }

  // ---- Which files the layer holds -----------------------------------------------------------------------

  /** Entries extracted to the same file have the same signed form, so it does not matter which of them came last. */
  ghost predicate NoClash(image: Image, requested: set<string>, m: Machine) {
    forall k1, k2 ::
      k1 in requested && k2 in requested && DestinationOf(image, k1, m) == DestinationOf(image, k2, m) ==>
      SignedOf(image, k1, m) == SignedOf(image, k2, m)
  }

  /** The layer the tool writes is the one it should write exactly when no two picks clash. */
  lemma WrittenIsSigned(layer: Layer, image: Image, requested: set<string>, m: Machine, files: map<Path, Bytes>)
    requires WrittenFrom(layer, image, requested, m, files)
    ensures SignedLayer(layer, image, requested, m) <==> NoClash(image, requested, m)
  {
    if NoClash(image, requested, m) {
      forall i | 0 <= i < |layer| ensures SignedOf(image, layer[i].name, m) == Some(layer[i].data) {
        var d := DestinationOf(image, layer[i].name, m).value;
        assert FromPick(d, files[d], requested, image, m);
      }
    }
    if SignedLayer(layer, image, requested, m) {
      forall k1, k2 | k1 in requested && k2 in requested && DestinationOf(image, k1, m) == DestinationOf(image, k2, m)
        ensures SignedOf(image, k1, m) == SignedOf(image, k2, m)
      {
        var i1 :| 0 <= i1 < |layer| && layer[i1].name == k1;
        var i2 :| 0 <= i2 < |layer| && layer[i2].name == k2;
      }
    }
  }

  lemma WrittenImageIsSigned(signed: Image, image: Image, requested: set<string>, m: Machine)
    requires IsWritten(signed, image, requested, m)
    ensures IsSigned(signed, image, requested, m) <==> NoClash(Seen(image, m), requested, m)
  {
    var layer, files :| signed == image + [layer] && WrittenFrom(layer, Seen(image, m), requested, m, files);
    WrittenIsSigned(layer, Seen(image, m), requested, m, files);
    forall other | signed == image + [other] ensures other == layer {
      assert signed[|image|] == other;
    }
  }

  /** No ".." of the name leads above where the name starts. */
  predicate StaysBelow(elements: seq<string>, depth: nat)
    decreases |elements|
  {
    elements == [] ||
    if elements[0] == "" || elements[0] == "." then StaysBelow(elements[1..], depth)
    else if elements[0] == ".." then depth > 0 && StaysBelow(elements[1..], depth - 1)
    else StaysBelow(elements[1..], depth + 1)
  }

  lemma {:induction false} ResolveBelow(elements: seq<string>, base: Path, above: Path)
    requires StaysBelow(elements, |above|)
    ensures Resolve(elements, base + above) == base + Resolve(elements, above)
    decreases |elements|
  {
    if elements != [] {
      if elements[0] == "" || elements[0] == "." {
        ResolveBelow(elements[1..], base, above);
      } else if elements[0] == ".." {
        assert (base + above)[..|base + above| - 1] == base + above[..|above| - 1];
        ResolveBelow(elements[1..], base, above[..|above| - 1]);
      } else {
        assert base + above + [elements[0]] == base + (above + [elements[0]]);
        ResolveBelow(elements[1..], base, above + [elements[0]]);
      }
    }
  }

  /** The name of the entry picked for the path does not climb. */
  ghost predicate PickStaysBelow(image: Image, k: string) {
    Pick(image, 0, Components(k)).Some? ==>
      StaysBelow(Split(At(image, Pick(image, 0, Components(k)).value).name, '/'), 0)
  }

  /** Picks whose names do not climb are extracted to different files, wherever the temporary directory is. */
  lemma StayingBelowMeansNoClash(image: Image, requested: set<string>, m: Machine)
    requires AllCanonical(requested) && AllFound(image, requested)
    requires forall k :: k in requested ==> PickStaysBelow(image, k)
    ensures NoClash(image, requested, m)
  {
    forall k | k in requested ensures DestinationOf(image, k, m) == Some(m.tempDir + Components(k)) {
      assert PickStaysBelow(image, k);
      ResolveBelow(Split(At(image, Pick(image, 0, Components(k)).value).name, '/'), m.tempDir, []);
      assert m.tempDir + [] == m.tempDir;
    }
    forall k1, k2 | k1 in requested && k2 in requested && m.tempDir + Components(k1) == m.tempDir + Components(k2)
      ensures k1 == k2
    {
      assert Components(k1) == (m.tempDir + Components(k1))[|m.tempDir|..];
      assert Components(k2) == (m.tempDir + Components(k2))[|m.tempDir|..];
      NameIsPath(k1);
      NameIsPath(k2);
    }
  }

  lemma NameIsPath(k: string)
    requires CanonicalisePath(k) == k
    ensures Render(Components(k)) == k
  {
    LeadingSlash(k);
  }

  // ---- What the signed image means ---------------------------------------------------------------------

  ghost predicate NoneBelow(tree: Tree, p: Path) {
    forall q :: q in tree ==> !(p < q)
  }

  /** A pick of what the walk gets to see is an entry of the image. */
  lemma SeenPick(image: Image, seen: Image, p: Path)
    requires Prefixes(seen, image) && Pick(seen, 0, p).Some?
    ensures var pos := Pick(seen, 0, p).value; InImage(image, pos) && At(image, pos) == At(seen, pos)
  {
  }

  /**
   The entry picked for the path is a regular file that nothing disturbs: a check on the names and kinds of entries.
   */
  ghost predicate PickedWell(image: Image, seen: Image, k: string)
    requires Prefixes(seen, image)
  {
    Pick(seen, 0, Components(k)).Some? &&
    var pos := Pick(seen, 0, Components(k)).value;
    InImage(image, pos) && Undisturbed(image, pos) && At(image, pos).kind == Regular
  }

  /** The top-down walk picks the entry the flattened filesystem shows, exactly when nothing disturbs that entry. */
  lemma PickIsVisible(image: Image, seen: Image, p: Path)
    requires Prefixes(seen, image) && Pick(seen, 0, p).Some?
    ensures var pos := Pick(seen, 0, p).value;
      InImage(image, pos) && (Shows(Stack(image, |image|), p, NodeAt(image, pos)) <==> Undisturbed(image, pos))
  {
    SeenPick(image, seen, p);
    VisibleIffUndisturbed(image, Pick(seen, 0, p).value);
  }

  /** No layer has two entries for one path. */
  ghost predicate UniquePaths(image: Image) {
    forall l, x, y :: 0 <= l < |image| && 0 <= x < y < |image[l]| ==> PathOf(image[l][x]) != PathOf(image[l][y])
  }

  lemma UndisturbedIsFirstMet(image: Image, pos: Pos)
    requires UniquePaths(image) && InImage(image, pos) && Undisturbed(image, pos)
    ensures IsFirstMet(image, PathOf(At(image, pos)), pos)
  {
    var (p, kind) := (PathOf(At(image, pos)), At(image, pos).kind);
    hide PathOf, EffectOf, Displaces, Hidden;
    forall l, x | pos.layer < l < |image| && 0 <= x < |image[l]| ensures PathOf(image[l][x]) != p {
      assert LeavesAlone(image[l], p, kind);
      assert !Touches(image[l][x], p, kind);
    }
  }

  /** Whatever the flattened filesystem shows at a path is picked, if no layer has two entries for one path. */
  lemma VisibleIsPicked(image: Image, p: Path)
    requires UniquePaths(image) && p in Stack(image, |image|)
    ensures var node := Stack(image, |image|)[p];
      Pick(image, 0, p) == Some(node.pos) && InImage(image, node.pos) && node == NodeAt(image, node.pos)
  {
    var node := Stack(image, |image|)[p];
    StackFromImage(image, |image|);
    assert ShowsEntryOf(node, image, p);
    VisibleIffUndisturbed(image, node.pos);
    UndisturbedIsFirstMet(image, node.pos);
    FirstMetIsPicked(image, p, node.pos);
  }

  ghost predicate ShowsFile(tree: map<Path, File>, p: Path) {
    p in tree && tree[p].kind == Regular
  }

  /** In such an image a path is picked well exactly when the flattened filesystem shows a regular file there. */
  lemma PickedWellMeansShown(image: Image, k: string)
    requires UniquePaths(image)
    ensures PickedWell(image, image, k) <==> ShowsFile(Flatten(image), Components(k))
  {
    var p := Components(k);
    if Pick(image, 0, p).Some? { PickIsVisible(image, image, p); }
    if p in Stack(image, |image|) { VisibleIsPicked(image, p); }
    hide Stack, Pick, Undisturbed;
  }

  lemma PutReplaces(tree: Tree, e: Entry, pos: Pos)
    requires WellFormed(tree) && e.kind == Regular && EffectOf(PathOf(e)).Puts?
    requires PathOf(e) in tree && NoneBelow(tree, PathOf(e))
    ensures Put(tree, e, pos) == tree[PathOf(e) := Node(pos, Regular, e.data)]
  {
  }

  /** Every entry of the layer is a regular file at a place the tree shows, with nothing below it; no place twice. */
  ghost predicate Replaces(layer: Layer, tree: Tree) {
    && (forall i :: 0 <= i < |layer| ==> ReplacesOne(layer[i], tree))
    && (forall i, j :: 0 <= i < j < |layer| ==> PathOf(layer[i]) != PathOf(layer[j]))
  }

  ghost predicate ReplacesOne(e: Entry, tree: Tree) {
    e.kind == Regular && EffectOf(PathOf(e)).Puts? && PathOf(e) in tree && NoneBelow(tree, PathOf(e))
  }

  /** The first m entries of the layer are in the tree, and the rest of the tree is as it was. */
  ghost predicate Replaced(layer: Layer, l: nat, m: nat, tree: Tree, filled: Tree)
    requires m <= |layer|
  {
    && filled.Keys == tree.Keys
    && (forall q :: q in tree && NotAmong(layer, m, q) ==> filled[q] == tree[q])
    && (forall i :: 0 <= i < m ==> ShowsEntry(filled, layer[i], Pos(l, i)))
  }

  ghost predicate NotAmong(layer: Layer, m: nat, q: Path)
    requires m <= |layer|
  {
    forall i :: 0 <= i < m ==> PathOf(layer[i]) != q
  }

  ghost predicate ShowsEntry(tree: Tree, e: Entry, pos: Pos) {
    PathOf(e) in tree && tree[PathOf(e)] == Node(pos, Regular, e.data)
  }

  lemma ReplacedOneMore(layer: Layer, l: nat, m: nat, tree: Tree, filled: Tree)
    requires m < |layer| && Replaces(layer, tree) && Replaced(layer, l, m, tree, filled)
    ensures Replaced(layer, l, m + 1, tree, filled[PathOf(layer[m]) := Node(Pos(l, m), Regular, layer[m].data)])
  {
    hide PathOf, NoneBelow, EffectOf;
    var filled' := filled[PathOf(layer[m]) := Node(Pos(l, m), Regular, layer[m].data)];
    assert ReplacesOne(layer[m], tree);
    forall q | q in tree && NotAmong(layer, m + 1, q) ensures filled'[q] == tree[q] {
      assert NotAmong(layer, m, q);
    }
    forall i | 0 <= i < m ensures ShowsEntry(filled', layer[i], Pos(l, i)) {
      assert ShowsEntry(filled, layer[i], Pos(l, i));
    }
  }

  lemma ReplacedWellFormed(layer: Layer, l: nat, m: nat, tree: Tree, filled: Tree)
    requires m <= |layer| && WellFormed(tree) && Replaces(layer, tree) && Replaced(layer, l, m, tree, filled)
    ensures WellFormed(filled)
  {
    forall p, q | p in filled && q in filled && p < q ensures filled[p].kind == Directory {
      forall i | 0 <= i < m ensures PathOf(layer[i]) != p {
        assert ReplacesOne(layer[i], tree);
      }
      assert NotAmong(layer, m, p);
    }
  }

  lemma PutOneMore(layer: Layer, l: nat, m: nat, tree: Tree, filled: Tree)
    requires m < |layer| && WellFormed(tree) && Replaces(layer, tree) && Replaced(layer, l, m, tree, filled)
    ensures Replaced(layer, l, m + 1, tree, Put(filled, layer[m], Pos(l, m)))
  {
    ReplacedWellFormed(layer, l, m, tree, filled);
    assert ReplacesOne(layer[m], tree);
    PutReplaces(filled, layer[m], Pos(l, m));
    ReplacedOneMore(layer, l, m, tree, filled);
  }

  lemma NothingReplaced(layer: Layer, l: nat, tree: Tree)
    ensures Replaced(layer, l, 0, tree, tree)
  {
  }

  lemma {:induction false} FillReplaces(layer: Layer, l: nat, m: nat, tree: Tree)
    requires m <= |layer| && WellFormed(tree) && Replaces(layer, tree)
    ensures Replaced(layer, l, m, tree, Fill(layer, l, m, tree))
  {
    hide Put, Replaced, WellFormed, Replaces;
    if m == 0 {
      NothingReplaced(layer, l, tree);
    } else {
      FillReplaces(layer, l, m - 1, tree);
      PutOneMore(layer, l, m - 1, tree, Fill(layer, l, m - 1, tree));
    }
  }

  lemma PickReplaced(image: Image, seen: Image, e: Entry)
    requires Prefixes(seen, image) && PickedWell(image, seen, e.name) && e.kind == Regular
    ensures ReplacesOne(e, Stack(image, |image|))
  {
    PickIsVisible(image, seen, PathOf(e));
    StackWellFormed(image, |image|);
    hide Stack, Pick;
  }

  lemma RequestedReplaced(image: Image, seen: Image, layer: Layer, requested: set<string>, m: Machine)
    requires Prefixes(seen, image) && ListsRequested(layer, seen, requested, m) && AllCanonical(requested)
    requires forall k :: k in requested ==> PickedWell(image, seen, k)
    ensures Replaces(layer, Stack(image, |image|))
  {
    hide PickedWell, ReplacesOne, Stack;
    forall i | 0 <= i < |layer| ensures ReplacesOne(layer[i], Stack(image, |image|)) {
      PickReplaced(image, seen, layer[i]);
    }
    forall i, j | 0 <= i < j < |layer| ensures PathOf(layer[i]) != PathOf(layer[j]) {
      NameIsPath(layer[i].name);
      NameIsPath(layer[j].name);
    }
  }

  lemma NoWhiteouts(layer: Layer, tree: Tree)
    requires Replaces(layer, tree)
    ensures Uncover(layer, tree) == tree
  {
    forall q | q in tree ensures !Hidden(layer, q) {
      forall e | e in layer ensures !Hides(PathOf(e), q) {
        var i :| 0 <= i < |layer| && layer[i] == e;
        assert ReplacesOne(layer[i], tree);
      }
    }
  }

  /** Appending a layer of such files. */
  lemma TopLayerReplaces(image: Image, layer: Layer)
    requires Replaces(layer, Stack(image, |image|))
    ensures Replaced(layer, |image|, |layer|, Stack(image, |image|), Stack(image + [layer], |image| + 1))
  {
    var tree := Stack(image, |image|);
    StackWellFormed(image, |image|);
    StackOfPrefix(image, layer, |image|);
    NoWhiteouts(layer, tree);
    FillReplaces(layer, |image|, |layer|, tree);
  }

  /** Every path that was not requested shows what it showed, and no path is lost or new. */
  ghost predicate OthersKept(was: map<Path, File>, now: map<Path, File>, requested: set<string>) {
    now.Keys == was.Keys && forall q :: q in was && Render(q) !in requested ==> now[q] == was[q]
  }

  lemma OtherPathsKept(layer: Layer, l: nat, requested: set<string>, tree: Tree, tree': Tree)
    requires Replaced(layer, l, |layer|, tree, tree') && AllCanonical(requested)
    requires forall i :: 0 <= i < |layer| ==> layer[i].name in requested
    ensures OthersKept(Contents(tree), Contents(tree'), requested)
  {
    hide ShowsEntry, Components, CanonicalisePath;
    forall q | q in tree && Render(q) !in requested ensures tree'[q] == tree[q] {
      forall i | 0 <= i < |layer| ensures PathOf(layer[i]) != q {
        NameIsPath(layer[i].name);
      }
      assert NotAmong(layer, |layer|, q);
    }
  }

  /** The flattened filesystem shows the picked entry at its path, and it is a regular file. */
  ghost predicate ShowsPick(image: Image, seen: Image, k: string)
    requires Prefixes(seen, image)
  {
    Pick(seen, 0, Components(k)).Some? &&
    var pos := Pick(seen, 0, Components(k)).value;
    && InImage(image, pos) && At(image, pos).kind == Regular
    && Shows(Stack(image, |image|), Components(k), NodeAt(image, pos))
  }

  lemma ShowsPickIff(image: Image, seen: Image, k: string)
    requires Prefixes(seen, image)
    ensures ShowsPick(image, seen, k) <==> PickedWell(image, seen, k)
  {
    hide Stack, Undisturbed;
    if Pick(seen, 0, Components(k)).Some? { PickIsVisible(image, seen, Components(k)); }
  }

  /** What the new image shows at a requested path, and what the old one showed there. */
  ghost predicate ShowsSigned(image: Image, seen: Image, k: string, m: Machine, now: map<Path, File>)
    requires Prefixes(seen, image)
  {
    && ShowsPick(image, seen, k) && SignedOf(seen, k, m).Some?
    && Components(k) in now && now[Components(k)] == File(Regular, SignedOf(seen, k, m).value)
  }

  ghost predicate AllShowSigned(image: Image, seen: Image, requested: set<string>, m: Machine, now: map<Path, File>)
    requires Prefixes(seen, image)
  {
    forall k :: k in requested ==> ShowsSigned(image, seen, k, m, now)
  }

  /**
   Signing preserved the image: the flattened filesystem has the same paths; every path that was not requested shows
   what it showed; and every requested path showed a regular file, the picked entry, and now shows its signed form.
   */
  ghost predicate Preserved(image: Image, seen: Image, signed: Image, requested: set<string>, m: Machine)
    requires Prefixes(seen, image)
  {
    && OthersKept(Flatten(image), Flatten(signed), requested)
    && AllShowSigned(image, seen, requested, m, Flatten(signed))
  }

  /** The condition: what the picks look like in the image, and where they are extracted to. */
  ghost predicate PreservesImage(image: Image, seen: Image, requested: set<string>, m: Machine)
    requires Prefixes(seen, image)
  {
    (forall k :: k in requested ==> PickedWell(image, seen, k)) && NoClash(seen, requested, m)
  }

  lemma ListedAreRequested(seen: Image, layer: Layer, requested: set<string>, m: Machine)
    requires SignedLayer(layer, seen, requested, m)
    ensures forall i :: 0 <= i < |layer| ==> layer[i].name in requested
  {
  }

  /** A file of the new layer, signed from its pick, is what the new image shows. */
  lemma SignedShown(image: Image, seen: Image, e: Entry, pos: Pos, m: Machine, tree': Tree)
    requires Prefixes(seen, image) && PickedWell(image, seen, e.name)
    requires SignedOf(seen, e.name, m) == Some(e.data) && ShowsEntry(tree', e, pos)
    ensures ShowsSigned(image, seen, e.name, m, Contents(tree'))
  {
    ShowsPickIff(image, seen, e.name);
    hide ShowsPick, PickedWell, Stack, SignedOf;
  }

  lemma EntryOf(seen: Image, layer: Layer, requested: set<string>, m: Machine, k: string) returns (i: nat)
    requires SignedLayer(layer, seen, requested, m) && k in requested
    ensures i < |layer| && layer[i].name == k && SignedOf(seen, k, m) == Some(layer[i].data)
  {
    i :| 0 <= i < |layer| && layer[i].name == k;
  }

  lemma NewEntryShown(layer: Layer, l: nat, tree: Tree, tree': Tree, i: nat)
    requires Replaced(layer, l, |layer|, tree, tree') && i < |layer|
    ensures ShowsEntry(tree', layer[i], Pos(l, i))
  {
  }

  /** If the picks are as they should be, so is the new image. */
  lemma SignedPreserves(image: Image, seen: Image, layer: Layer, requested: set<string>, m: Machine)
    requires Prefixes(seen, image) && SignedLayer(layer, seen, requested, m) && AllCanonical(requested)
    requires forall k :: k in requested ==> PickedWell(image, seen, k)
    ensures Preserved(image, seen, image + [layer], requested, m)
  {
    var (tree, tree') := (Stack(image, |image|), Stack(image + [layer], |image| + 1));
    hide PickedWell, ShowsSigned, Replaces, Replaced, OthersKept, Contents, Stack, ListsRequested;
    hide CanonicalisePath, Components;
    RequestedReplaced(image, seen, layer, requested, m);
    TopLayerReplaces(image, layer);
    ListedAreRequested(seen, layer, requested, m);
    OtherPathsKept(layer, |image|, requested, tree, tree');
    forall k | k in requested ensures ShowsSigned(image, seen, k, m, Contents(tree')) {
      var i := EntryOf(seen, layer, requested, m, k);
      NewEntryShown(layer, |image|, tree, tree', i);
      SignedShown(image, seen, layer[i], Pos(|image|, i), m, tree');
    }
  }

  lemma PreservedContents(image: Image, seen: Image, layer: Layer, requested: set<string>, m: Machine)
    requires Prefixes(seen, image) && ListsRequested(layer, seen, requested, m) && AllCanonical(requested)
    requires forall k :: k in requested ==> PickedWell(image, seen, k)
    requires Preserved(image, seen, image + [layer], requested, m)
    ensures SignedLayer(layer, seen, requested, m)
  {
    var tree' := Stack(image + [layer], |image| + 1);
    RequestedReplaced(image, seen, layer, requested, m);
    TopLayerReplaces(image, layer);
    forall i | 0 <= i < |layer| ensures SignedOf(seen, layer[i].name, m) == Some(layer[i].data) {
      assert ShowsSigned(image, seen, layer[i].name, m, Contents(tree'));
      assert ShowsEntry(tree', layer[i], Pos(|image|, i));
    }
  }

  /**
   Signing preserves the image if and only if every picked entry is an undisturbed regular file and no two picks clash
   on a temporary file.
   */
  lemma SigningPreservesImage(
    image: Image, seen: Image, layer: Layer, requested: set<string>, m: Machine, files: map<Path, Bytes>)
    requires Prefixes(seen, image) && WrittenFrom(layer, seen, requested, m, files) && AllCanonical(requested)
    ensures Preserved(image, seen, image + [layer], requested, m) <==> PreservesImage(image, seen, requested, m)
  {
    WrittenIsSigned(layer, seen, requested, m, files);
    if PreservesImage(image, seen, requested, m) {
      SignedPreserves(image, seen, layer, requested, m);
    }
    if Preserved(image, seen, image + [layer], requested, m) {
      forall k | k in requested ensures PickedWell(image, seen, k) {
        assert ShowsSigned(image, seen, k, m, Flatten(image + [layer]));
        ShowsPickIff(image, seen, k);
      }
      PreservedContents(image, seen, layer, requested, m);
    }
  }

  /** The same of the image the tool returns, for every list of files, image and run. */
  lemma ToolPreservesImage(filesList: string, pulled: Option<Image>, m: Machine, outcome: Outcome)
    requires Produces(filesList, pulled, m, outcome) && outcome.Appended?
    ensures pulled.Some?
    ensures var (image, seen, requested) := (pulled.value, Seen(pulled.value, m), Requested(filesList));
      Preserved(image, seen, outcome.image, requested, m) <==> PreservesImage(image, seen, requested, m)
  {
    var (image, seen, requested) := (pulled.value, Seen(pulled.value, m), Requested(filesList));
    var layer, files :| outcome.image == image + [layer] && WrittenFrom(layer, seen, requested, m, files);
    SigningPreservesImage(image, seen, layer, requested, m, files);
  }

  /**
   For an image read whole, without two entries for a path in a layer: signing preserves it if and only if every
   requested path shows a regular file and no two picks clash.
   */
  lemma WholeImagePreserved(filesList: string, image: Image, m: Machine, signed: Image)
    requires Produces(filesList, Some(image), m, Appended(signed)) && Seen(image, m) == image && UniquePaths(image)
    ensures Preserved(image, image, signed, Requested(filesList), m) <==>
      && NoClash(image, Requested(filesList), m)
      && forall k :: k in Requested(filesList) ==> ShowsFile(Flatten(image), Components(k))
  {
    ToolPreservesImage(filesList, Some(image), m, Appended(signed));
    forall k ensures PickedWell(image, image, k) <==> ShowsFile(Flatten(image), Components(k)) {
      PickedWellMeansShown(image, k);
    }
    hide Preserved, Produces, PickedWell, Flatten;
  }

  // ---- Inputs that do not meet the condition -------------------------------------------------------------

  lemma ComponentsOfName(name: string)
    requires Plain(name)
    ensures Components(name) == [name] == Components("/" + name)
  {
    LeadingSlash(name);
    SplitOfJoin([name], '/');
    ResolvePlain([name], []);
  }

  lemma TopEntryShown(image: Image, e: Entry)
    requires EffectOf(PathOf(e)).Puts?
    ensures PathOf(e) in Flatten(image + [[e]]) && Flatten(image + [[e]])[PathOf(e)] == File(e.kind, e.data)
  {
    assert (image + [[e]])[|image|] == [e];
    VisibleIffUndisturbed(image + [[e]], Pos(|image|, 0));
  }

  lemma PlainNamePuts()
    ensures EffectOf(["a"]) == Puts == EffectOf(["b"])
  {
  }

  lemma StillPicked(low: Layer, high: Layer)
    requires |low| == 1 && |high| == 1 && PathOf(low[0]) == ["a"] && PathOf(high[0]) == [".wh.a"]
    ensures Pick([low, high], 0, ["a"]) == Some(Pos(0, 0))
  {
    assert FirstIn(high, 1, ["a"]) == None && FirstIn(low, 1, ["a"]) == Some(0);
    assert Pick([low, high], 2, ["a"]) == None;
    assert Pick([low, high], 1, ["a"]) == None;
  }

  /**
   Why the picked entry must be undisturbed: a file removed by a whiteout in a higher layer is still found, signed and
   appended, and so comes back.
   */
  lemma RemovedFileComesBack(data: Bytes, signed: Bytes)
    ensures var image := [[Entry("a", Regular, data)], [Entry(".wh.a", Regular, [])]];
      && ["a"] !in Flatten(image)
      && Pick(image, 0, Components("/a")) == Some(Pos(0, 0)) && !PickedWell(image, image, "/a")
      && ["a"] in Flatten(image + [[Entry("/a", Regular, signed)]])
  {
    hide Components, Stack, EffectOf, Undisturbed, Hidden;
    var (low, high) := ([Entry("a", Regular, data)], [Entry(".wh.a", Regular, [])]);
    ComponentsOfName("a");
    assert "/" + "a" == "/a";
    ComponentsOfName(".wh.a");
    Removed(low, high);
    StillPicked(low, high);
    PickIsVisible([low, high], [low, high], ["a"]);
    PlainNamePuts();
    TopEntryShown([low, high], Entry("/a", Regular, signed));
  }

  lemma PickInTwoLayers(low: Layer, high: Layer, p: Path)
    requires |low| == 1 && PathOf(low[0]) == p && high == []
    ensures Pick([low, high], 0, p) == Some(Pos(0, 0))
  {
    assert FirstIn(low, 1, p) == Some(0) && FirstIn(high, 0, p) == None;
    assert Pick([low, high], 2, p) == None;
    assert Pick([low, high], 1, p) == None;
  }

  lemma NewCopyShown(low: Layer, high: Layer, p: Path)
    requires |low| == 1 && |high| == 1 && PathOf(low[0]) == p && PathOf(high[0]) == p && EffectOf(p).Puts?
    ensures !Undisturbed([low, high], Pos(0, 0))
  {
    assert Touches(high[0], p, low[0].kind);
    assert !NoneTouches(high, 0, 1, p, low[0].kind);
    assert !LeavesAlone([low, high][1], p, low[0].kind);
    hide LeavesAlone, NoneTouches;
  }

  /**
   Why the walk must see whole layers: when the stream of the upper layer fails before its first entry, the stale copy
   of the lower layer is picked, signed and put on top of the new one.
   */
  lemma StaleCopyPicked(stale: Bytes, current: Bytes, m: Machine)
    requires m.broken == map[1 := 0]
    ensures var image := [[Entry("a", Regular, stale)], [Entry("a", Regular, current)]];
      var seen := Seen(image, m);
      && Pick(seen, 0, Components("/a")) == Some(Pos(0, 0)) && SignedOf(seen, "/a", m) == SignedAt(image, Pos(0, 0), m)
      && !PickedWell(image, seen, "/a")
      && ["a"] in Flatten(image) && Flatten(image)[["a"]] == File(Regular, current)
  {
    hide Components, Stack, EffectOf, Undisturbed, Hidden;
    var (low, high) := ([Entry("a", Regular, stale)], [Entry("a", Regular, current)]);
    ComponentsOfName("a");
    assert "/" + "a" == "/a";
    assert Seen([low, high], m) == [low, []];
    PickInTwoLayers(low, [], ["a"]);
    PlainNamePuts();
    NewCopyShown(low, high, ["a"]);
    TopEntryShown([low], high[0]);
    assert [low] + [high] == [low, high];
  }

  /**
   Why the pick must be a regular file: a link entry has no bytes, so an empty file is signed and takes the place of the
   link, although nothing disturbs the entry.
   */
  lemma LinkBecomesFile(data: Bytes, signed: Bytes)
    ensures var image := [[Entry("a", Regular, data), Entry("b", Link, [])]];
      && Pick(image, 0, Components("/b")) == Some(Pos(0, 1)) && Undisturbed(image, Pos(0, 1))
      && !PickedWell(image, image, "/b")
      && ["b"] in Flatten(image) && Flatten(image)[["b"]] == File(Link, [])
      && ["b"] in Flatten(image + [[Entry("/b", Regular, signed)]])
      && Flatten(image + [[Entry("/b", Regular, signed)]])[["b"]] == File(Regular, signed)
  {
    hide Components, Stack, EffectOf, Hidden;
    var layer := [Entry("a", Regular, data), Entry("b", Link, [])];
    ComponentsOfName("a");
    ComponentsOfName("b");
    assert "/" + "b" == "/b";
    PlainNamePuts();
    PickInOneLayer(layer, ["b"]);
    LastEntryUndisturbed(layer);
    VisibleIffUndisturbed([layer], Pos(0, 1));
    TopEntryShown([layer], Entry("/b", Regular, signed));
  }

  lemma LastEntryUndisturbed(layer: Layer)
    requires |layer| == 2 && EffectOf(PathOf(layer[1])).Puts?
    ensures Undisturbed([layer], Pos(0, 1))
  {
  }

  lemma Removed(low: Layer, high: Layer)
    requires |high| == 1 && PathOf(high[0]) == [".wh.a"]
    ensures Hidden(high, ["a"]) && ["a"] !in Stack([low, high], 2)
  {
    assert ".wh.a"[4..] == "a" && [] + ["a"] == ["a"] && [".wh.a"][..0] == [];
    assert EffectOf(PathOf(high[0])) == Removes(["a"]);
    assert high[0] in high && Hides(PathOf(high[0]), ["a"]);
    var below := Uncover(high, Stack([low, high], 1));
    assert Fill(high, 1, 1, below) == Put(Fill(high, 1, 0, below), high[0], Pos(1, 0)) == below;
  }

  lemma ResolvedName(names: seq<string>, base: Path)
    requires names != [] && forall n :: n in names ==> '/' !in n
    ensures Resolve(Split(Join(names, '/'), '/'), base) == Resolve(names, base)
  {
    SplitOfJoin(names, '/');
  }

  lemma ResolveClimbing(base: string)
    ensures var (one, two) := (["..", "x"], ["..", "..", "tmp", "x"]);
      && Resolve(one, ["tmp", base]) == Resolve(two, ["tmp", base]) == ["tmp", "x"]
      && Resolve(one, []) == ["x"] && Resolve(two, []) == ["tmp", "x"]
  {
    var (one, two) := (["..", "x"], ["..", "..", "tmp", "x"]);
    assert one[1..] == ["x"] && two[1..] == ["..", "tmp", "x"] && two[1..][1..] == ["tmp", "x"];
    assert ["tmp", base][..1] == ["tmp"] && ["tmp"][..0] == [];
  }

  lemma JoinedNames()
    ensures Join(["x"], '/') == "x" && Join(["tmp", "x"], '/') == "tmp/x"
    ensures Join(["..", "x"], '/') == "../x" && Join(["..", "..", "tmp", "x"], '/') == "../../tmp/x"
  {
    assert Join(["..", "tmp", "x"], '/') == "../tmp/x";
  }

  lemma RootedNames()
    ensures Components("/x") == ["x"] && Components("/tmp/x") == ["tmp", "x"]
  {
    JoinedNames();
    ComponentsOfRender(["x"]);
    ComponentsOfRender(["tmp", "x"]);
  }

  /** The names "../x" and "../../tmp/x", resolved in the image and in a temporary directory below /tmp. */
  lemma ClimbingNames(base: string)
    ensures Components("../x") == ["x"] && Components("../../tmp/x") == ["tmp", "x"]
    ensures Resolve(Split("../x", '/'), ["tmp", base]) == Resolve(Split("../../tmp/x", '/'), ["tmp", base])
  {
    JoinedNames();
    ResolveClimbing(base);
    hide Join, Split, Resolve;
    var (one, two) := (["..", "x"], ["..", "..", "tmp", "x"]);
    ResolvedName(one, []);
    ResolvedName(one, ["tmp", base]);
    ResolvedName(two, []);
    ResolvedName(two, ["tmp", base]);
  }

  lemma PickInOneLayer(layer: Layer, p: Path)
    requires |layer| == 2 && PathOf(layer[0]) != PathOf(layer[1])
    ensures Pick([layer], 0, p) ==
      if PathOf(layer[0]) == p then Some(Pos(0, 0)) else if PathOf(layer[1]) == p then Some(Pos(0, 1)) else None
  {
    assert FirstIn(layer, 0, p) == None;
    assert FirstIn(layer, 2, p) == if FirstIn(layer, 1, p).Some? then FirstIn(layer, 1, p)
                                   else if PathOf(layer[1]) == p then Some(1) else None;
    assert Pick([layer], 1, p) == None;
  }

  /**
   Why the names must not climb: two well-picked files whose names lead out of the temporary directory are extracted to
   one file there, and one of them gets the signed content of the other.
   */
  lemma TemporaryFilesClash(m: Machine, base: string, data1: Bytes, data2: Bytes)
    requires m.tempDir == ["tmp", base] && m.refused == {} && m.signFile(data1) != m.signFile(data2)
    ensures var image := [[Entry("../x", Regular, data1), Entry("../../tmp/x", Regular, data2)]];
      && PickedWell(image, image, "/x") && PickedWell(image, image, "/tmp/x")
      && !NoClash(image, {"/x", "/tmp/x"}, m)
  {
    hide Components, Resolve, Split, Undisturbed;
    var (e1, e2) := (Entry("../x", Regular, data1), Entry("../../tmp/x", Regular, data2));
    var layer := [e1, e2];
    ClimbingNames(base);
    RootedNames();
    assert PathOf(e1) == ["x"] && PathOf(e2) == ["tmp", "x"];
    PickInOneLayer(layer, ["x"]);
    PickInOneLayer(layer, ["tmp", "x"]);
    NothingTouches(e1, e2);
    assert DestinationOf([layer], "/x", m) == DestinationOf([layer], "/tmp/x", m);
    assert SignedOf([layer], "/x", m) != SignedOf([layer], "/tmp/x", m);
  }

  lemma NothingTouches(e1: Entry, e2: Entry)
    requires PathOf(e1) == ["x"] && PathOf(e2) == ["tmp", "x"] && e1.kind == Regular && e2.kind == Regular
    ensures Undisturbed([[e1, e2]], Pos(0, 0)) && Undisturbed([[e1, e2]], Pos(0, 1))
  {
    assert EffectOf(["x"]) == Puts && EffectOf(["tmp", "x"]) == Puts;
    assert ["x"][0] != ["tmp", "x"][0];
  }
}
