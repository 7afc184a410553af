/**
 What an image means: the flattened filesystem, by the rules of "Applying Changesets" in the layer document of the OCI
 Image Format Specification. Paths are lexical; links are not followed.
 */
module Overlay {
  import opened Base
  import opened Paths
  import opened Registry

  datatype Kind = Regular | Directory | Link

  datatype Entry = Entry(name: string, kind: Kind, data: Bytes)

  type Layer = seq<Entry>
  type Image = seq<Layer>

  datatype Pos = Pos(layer: nat, entry: nat)

  /** What the filesystem shows at a path, and which entry of the image put it there. */
  datatype Node = Node(pos: Pos, kind: Kind, data: Bytes)

  datatype File = File(kind: Kind, data: Bytes)

  type Tree = map<Path, Node>

  function PathOf(e: Entry): Path {
    Components(e.name)
  }

  predicate InImage(image: Image, pos: Pos) {
    pos.layer < |image| && pos.entry < |image[pos.layer]|
  }

  function At(image: Image, pos: Pos): Entry
    requires InImage(image, pos)
  {
    image[pos.layer][pos.entry]
  }

  function NodeAt(image: Image, pos: Pos): Node
    requires InImage(image, pos)
  {
    Node(pos, At(image, pos).kind, At(image, pos).data)
  }

  const WHITEOUT := ".wh."
  const OPAQUE := ".wh..wh..opq"

  datatype Effect = Puts | Removes(target: Path) | Empties(dir: Path)

  function EffectOf(p: Path): Effect {
    if p == [] then Puts
    else
      var (dir, base) := (p[..|p| - 1], p[|p| - 1]);
      if base == OPAQUE then Empties(dir)
      else if WHITEOUT <= base then Removes(dir + [base[|WHITEOUT|..]])
      else Puts
  }

  /** A whiteout entry at path w hides path q of the layers below. */
  predicate Hides(w: Path, q: Path) {
    match EffectOf(w)
    case Puts => false
    case Removes(target) => target <= q
    case Empties(dir) => dir < q
  }

  /**
   The three kinds of names: ".wh." and a name removes that path and all below it, ".wh..wh..opq" removes all below its
   directory but not the directory, and any other name hides nothing.
   */
  lemma NamesHide(dir: Path, name: string, q: Path)
    ensures name != ".wh..opq" ==>
      (Hides(dir + [".wh." + name], q) <==> dir + [name] <= q) && EffectOf(dir + [".wh." + name]) != Puts
    ensures (Hides(dir + [".wh..wh..opq"], q) <==> dir < q) && EffectOf(dir + [".wh..wh..opq"]) != Puts
    ensures !(".wh." <= name) ==> !Hides(dir + [name], q) && EffectOf(dir + [name]) == Puts
    ensures !Hides([], q) && EffectOf([]) == Puts
  {
    assert (".wh." + name)[4..] == name && ".wh..wh..opq"[4..] == ".wh..opq";
    var (removing, emptying, putting) := (dir + [".wh." + name], dir + [".wh..wh..opq"], dir + [name]);
    assert removing[..|dir|] == dir && emptying[..|dir|] == dir && putting[..|dir|] == dir;
    assert ".wh." + name == OPAQUE ==> name == ".wh..opq";
  }

  /** Putting an entry at p removes what was shown at q: a file has nothing below it, and nothing is below a file. */
  predicate Displaces(p: Path, kind: Kind, q: Path, shown: Kind) {
    (p < q && kind != Directory) || (q < p && shown != Directory)
  }

  ghost function Put(tree: Tree, e: Entry, pos: Pos): Tree {
    var p := PathOf(e);
    if !EffectOf(p).Puts? then tree
    else (map q | q in tree && !Displaces(p, e.kind, q, tree[q].kind) :: tree[q])[p := Node(pos, e.kind, e.data)]
  }

  /** The first m entries of layer number l, in order. */
  ghost function Fill(layer: Layer, l: nat, m: nat, tree: Tree): Tree
    requires m <= |layer|
  {
    if m == 0 then tree else Put(Fill(layer, l, m - 1, tree), layer[m - 1], Pos(l, m - 1))
  }

  ghost predicate Hidden(layer: Layer, q: Path) {
    exists e :: e in layer && Hides(PathOf(e), q)
  }

  /** The whiteouts of a layer, which act on the layers below it only. */
  ghost function Uncover(layer: Layer, tree: Tree): Tree {
    map q | q in tree && !Hidden(layer, q) :: tree[q]
  }

  /** The lowest n layers, applied in order. */
  ghost function Stack(image: Image, n: nat): Tree
    requires n <= |image|
  {
    if n == 0 then map[]
    else Fill(image[n - 1], n - 1, |image[n - 1]|, Uncover(image[n - 1], Stack(image, n - 1)))
  }

  ghost function Contents(tree: Tree): map<Path, File> {
    map q | q in tree :: File(tree[q].kind, tree[q].data)
  }

  /** The flattened filesystem. */
  ghost function Flatten(image: Image): map<Path, File> {
    Contents(Stack(image, |image|))
  }

  // ---- Which entry is visible --------------------------------------------------------------------------

  ghost predicate Shows(tree: Tree, p: Path, node: Node) {
    p in tree && tree[p] == node
  }

  /** Applying entry e later takes away or replaces what is shown at p. */
  predicate Touches(e: Entry, p: Path, shown: Kind) {
    EffectOf(PathOf(e)).Puts? && (PathOf(e) == p || Displaces(PathOf(e), e.kind, p, shown))
  }

  /** Nothing applied after the entry at pos takes its path away: a check on the names in the layers. */
  ghost predicate Undisturbed(image: Image, pos: Pos)
    requires InImage(image, pos)
  {
    var (p, kind) := (PathOf(At(image, pos)), At(image, pos).kind);
    && EffectOf(p).Puts?
    && NoneTouches(image[pos.layer], pos.entry + 1, |image[pos.layer]|, p, kind)
    && LeftAlone(image, pos.layer + 1, |image|, p, kind)
  }

  ghost predicate NoneTouches(layer: Layer, from: nat, m: nat, p: Path, kind: Kind)
    requires from <= m <= |layer|
  {
    forall x :: from <= x < m ==> !Touches(layer[x], p, kind)
  }

  ghost predicate LeavesAlone(layer: Layer, p: Path, kind: Kind) {
    !Hidden(layer, p) && NoneTouches(layer, 0, |layer|, p, kind)
  }

  /** The layers numbered from `from` up to n leave p alone. */
  ghost predicate LeftAlone(image: Image, from: nat, n: nat, p: Path, kind: Kind)
    requires from <= n <= |image|
  {
    forall l :: from <= l < n ==> LeavesAlone(image[l], p, kind)
  }

  lemma PutShows(tree: Tree, e: Entry, pos: Pos, p: Path, node: Node)
    requires node.pos != pos
    ensures Shows(Put(tree, e, pos), p, node) <==> Shows(tree, p, node) && !Touches(e, p, node.kind)
  {
  }

  lemma NoneTouchesBut(layer: Layer, from: nat, m: nat, p: Path, kind: Kind)
    requires from <= m < |layer|
    ensures NoneTouches(layer, from, m + 1, p, kind) <==>
      NoneTouches(layer, from, m, p, kind) && !Touches(layer[m], p, kind)
    ensures NoneTouches(layer, from, from, p, kind)
  {
    hide Touches;
  }

  lemma {:induction false} FillShows(layer: Layer, l: nat, from: nat, m: nat, tree: Tree, p: Path, node: Node)
    requires from <= m <= |layer| && (node.pos.layer != l || node.pos.entry < from)
    ensures Shows(Fill(layer, l, m, tree), p, node) <==>
      Shows(Fill(layer, l, from, tree), p, node) && NoneTouches(layer, from, m, p, node.kind)
  {
    hide Put, Shows, Touches;
    if from < m {
      FillShows(layer, l, from, m - 1, tree, p, node);
      FillOneMore(layer, l, m - 1, tree, p, node);
      NoneTouchesBut(layer, from, m - 1, p, node.kind);
    }
  }

  lemma FillOneMore(layer: Layer, l: nat, m: nat, tree: Tree, p: Path, node: Node)
    requires m < |layer| && node.pos != Pos(l, m)
    ensures Shows(Fill(layer, l, m + 1, tree), p, node) <==>
      Shows(Fill(layer, l, m, tree), p, node) && !Touches(layer[m], p, node.kind)
  {
    hide Put, Shows, Touches;
    PutShows(Fill(layer, l, m, tree), layer[m], Pos(l, m), p, node);
  }

  /** What a whole layer applied to a tree leaves of what the tree showed. */
  lemma LayerShows(layer: Layer, l: nat, tree: Tree, p: Path, node: Node)
    requires node.pos.layer != l
    ensures Shows(Fill(layer, l, |layer|, Uncover(layer, tree)), p, node) <==>
      Shows(tree, p, node) && LeavesAlone(layer, p, node.kind)
  {
    var uncovered := Uncover(layer, tree);
    FillShows(layer, l, 0, |layer|, uncovered, p, node);
    assert Shows(uncovered, p, node) <==> Shows(tree, p, node) && !Hidden(layer, p) by { hide Hides; }
    hide Put, Shows, Touches, NoneTouches, Uncover, Hidden;
  }

  lemma OneMoreLayer(image: Image, from: nat, n: nat, p: Path, kind: Kind)
    requires from <= n < |image|
    ensures LeftAlone(image, from, n + 1, p, kind) <==>
      LeftAlone(image, from, n, p, kind) && LeavesAlone(image[n], p, kind)
  {
    hide LeavesAlone;
  }

  lemma {:induction false} StackShows(image: Image, from: nat, n: nat, p: Path, node: Node)
    requires node.pos.layer < from <= n <= |image|
    ensures Shows(Stack(image, n), p, node) <==>
      Shows(Stack(image, from), p, node) && LeftAlone(image, from, n, p, node.kind)
  {
    hide Shows, LeavesAlone, Uncover, Fill;
    if from < n {
      StackShows(image, from, n - 1, p, node);
      LayerShows(image[n - 1], n - 1, Stack(image, n - 1), p, node);
      OneMoreLayer(image, from, n - 1, p, node.kind);
    }
  }

  ghost predicate OnlyPuts(tree: Tree) {
    forall q :: q in tree ==> EffectOf(q).Puts?
  }

  lemma {:induction false} FillOnlyPuts(layer: Layer, l: nat, m: nat, tree: Tree)
    requires m <= |layer| && OnlyPuts(tree)
    ensures OnlyPuts(Fill(layer, l, m, tree))
  {
    if m > 0 { FillOnlyPuts(layer, l, m - 1, tree); }
  }

  lemma {:induction false} StackOnlyPuts(image: Image, n: nat)
    requires n <= |image|
    ensures OnlyPuts(Stack(image, n))
  {
    if n > 0 {
      StackOnlyPuts(image, n - 1);
      FillOnlyPuts(image[n - 1], n - 1, |image[n - 1]|, Uncover(image[n - 1], Stack(image, n - 1)));
    }
  }

  lemma PutShowsOwn(tree: Tree, e: Entry, pos: Pos)
    requires EffectOf(PathOf(e)).Puts?
    ensures Shows(Put(tree, e, pos), PathOf(e), Node(pos, e.kind, e.data))
  {
  }

  lemma ShownInItsLayer(layer: Layer, l: nat, m: nat, tree: Tree)
    requires m < |layer| && EffectOf(PathOf(layer[m])).Puts?
    ensures var (p, node) := (PathOf(layer[m]), Node(Pos(l, m), layer[m].kind, layer[m].data));
      Shows(Fill(layer, l, |layer|, tree), p, node) <==> NoneTouches(layer, m + 1, |layer|, p, node.kind)
  {
    hide Put, Shows, Touches, NoneTouches, EffectOf;
    var (p, node) := (PathOf(layer[m]), Node(Pos(l, m), layer[m].kind, layer[m].data));
    PutShowsOwn(Fill(layer, l, m, tree), layer[m], Pos(l, m));
    FillShows(layer, l, m + 1, |layer|, tree, p, node);
  }

  lemma PuttingEntry(image: Image, pos: Pos)
    requires InImage(image, pos) && EffectOf(PathOf(At(image, pos))).Puts?
    ensures Shows(Stack(image, |image|), PathOf(At(image, pos)), NodeAt(image, pos)) <==> Undisturbed(image, pos)
  {
    hide Shows, Fill, Uncover, NoneTouches, LeftAlone, EffectOf, PathOf;
    var layer := image[pos.layer];
    ShownInItsLayer(layer, pos.layer, pos.entry, Uncover(layer, Stack(image, pos.layer)));
    StackShows(image, pos.layer + 1, |image|, PathOf(At(image, pos)), NodeAt(image, pos));
  }

  /** An entry is what the flattened filesystem shows at its path exactly when it is undisturbed. */
  lemma VisibleIffUndisturbed(image: Image, pos: Pos)
    requires InImage(image, pos)
    ensures Shows(Stack(image, |image|), PathOf(At(image, pos)), NodeAt(image, pos)) <==> Undisturbed(image, pos)
  {
    hide Stack, NoneTouches, LeftAlone, EffectOf, PathOf;
    if EffectOf(PathOf(At(image, pos))).Puts? {
      PuttingEntry(image, pos);
    } else {
      StackOnlyPuts(image, |image|);
    }
  }

  // ---- Shape of the flattened filesystem ---------------------------------------------------------------

  /** Nothing lies below anything but a directory. */
  ghost predicate WellFormed(tree: Tree) {
    forall p, q :: p in tree && q in tree && p < q ==> tree[p].kind == Directory
  }

  lemma PutWellFormed(tree: Tree, e: Entry, pos: Pos)
    requires WellFormed(tree)
    ensures WellFormed(Put(tree, e, pos))
  {
  }

  lemma {:induction false} FillWellFormed(layer: Layer, l: nat, m: nat, tree: Tree)
    requires m <= |layer| && WellFormed(tree)
    ensures WellFormed(Fill(layer, l, m, tree))
  {
    if m > 0 {
      FillWellFormed(layer, l, m - 1, tree);
      PutWellFormed(Fill(layer, l, m - 1, tree), layer[m - 1], Pos(l, m - 1));
    }
  }

  lemma {:induction false} StackWellFormed(image: Image, n: nat)
    requires n <= |image|
    ensures WellFormed(Stack(image, n))
  {
    if n > 0 {
      StackWellFormed(image, n - 1);
      FillWellFormed(image[n - 1], n - 1, |image[n - 1]|, Uncover(image[n - 1], Stack(image, n - 1)));
    }
  }

  lemma {:induction false} StackOfPrefix(image: Image, top: Layer, n: nat)
    requires n <= |image|
    ensures Stack(image + [top], n) == Stack(image, n)
  {
    if n > 0 { StackOfPrefix(image, top, n - 1); }
  }

  /** Everything the tree shows is an entry of the image, at the path of its name. */
  ghost predicate FromImage(tree: Tree, image: Image) {
    forall q :: q in tree ==> ShowsEntryOf(tree[q], image, q)
  }

  ghost predicate ShowsEntryOf(node: Node, image: Image, q: Path) {
    InImage(image, node.pos) && PathOf(At(image, node.pos)) == q && node == NodeAt(image, node.pos)
  }

  lemma {:induction false} FillFromImage(image: Image, l: nat, m: nat, tree: Tree)
    requires l < |image| && m <= |image[l]| && FromImage(tree, image)
    ensures FromImage(Fill(image[l], l, m, tree), image)
  {
    if m > 0 {
      FillFromImage(image, l, m - 1, tree);
      var (e, filled) := (image[l][m - 1], Fill(image[l], l, m - 1, tree));
      assert ShowsEntryOf(Node(Pos(l, m - 1), e.kind, e.data), image, PathOf(e));
      hide ShowsEntryOf, PathOf, EffectOf, Displaces;
    }
  }

  lemma {:induction false} StackFromImage(image: Image, n: nat)
    requires n <= |image|
    ensures FromImage(Stack(image, n), image)
  {
    if n > 0 {
      StackFromImage(image, n - 1);
      FillFromImage(image, n - 1, |image[n - 1]|, Uncover(image[n - 1], Stack(image, n - 1)));
    }
  }
}
