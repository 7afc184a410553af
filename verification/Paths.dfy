/**
 Path canonicalisation of the signing tool: `filepath.Clean("/" + path)` by the lexical rules of Go's path/filepath
 documentation, on a rooted path.
 */
module Paths {
  import opened Text

  /** A canonical path as its components from the root; the root itself is []. */
  type Path = seq<string>

  /** Applies the lexical rules to the slash-separated elements, left to right. */
  function Resolve(elements: seq<string>, above: Path): Path
    decreases |elements|
  {
    if elements == [] then above
    else if elements[0] == "" || elements[0] == "." then Resolve(elements[1..], above)
    else if elements[0] == ".." then Resolve(elements[1..], if above == [] then [] else above[..|above| - 1])
    else Resolve(elements[1..], above + [elements[0]])
  }

  function Components(name: string): Path {
    Resolve(Split(name, '/'), [])
  }

  function Render(p: Path): string {
    "/" + Join(p, '/')
  }

  /** canonicalisePath of the signing tool. */
  function CanonicalisePath(path: string): string {
    Render(Components("/" + path))
  }

  predicate Plain(element: string) {
    element != "" && element != "." && element != ".." && '/' !in element
  }

  ghost predicate Clean(p: Path) {
    forall c :: c in p ==> Plain(c)
  }

  // ---- What canonicalisation yields ---------------------------------------------------------------

  lemma {:induction false} ResolveClean(elements: seq<string>, above: Path)
    requires Clean(above) && forall e :: e in elements ==> '/' !in e
    ensures Clean(Resolve(elements, above))
    decreases |elements|
  {
    if elements != [] {
      var next := if elements[0] == "" || elements[0] == "." then above
                  else if elements[0] == ".." then if above == [] then [] else above[..|above| - 1]
                  else above + [elements[0]];
      ResolveClean(elements[1..], next);
    }
  }

  lemma {:induction false} ResolvePlain(elements: seq<string>, above: Path)
    requires forall e :: e in elements ==> Plain(e)
    ensures Resolve(elements, above) == above + elements
    decreases |elements|
  {
    if elements != [] {
      assert elements[0] in elements;
      ResolvePlain(elements[1..], above + [elements[0]]);
      assert above + [elements[0]] + elements[1..] == above + elements;
    } else {
      assert above + elements == above;
    }
  }

  lemma LeadingSlash(name: string)
    ensures Components("/" + name) == Components(name)
  {
    assert ("/" + name)[1..] == name;
    assert Split("/" + name, '/') == [""] + Split(name, '/');
    assert ([""] + Split(name, '/'))[1..] == Split(name, '/');
  }

  /** Reading back a rendered clean path gives the same components, so a canonical string determines its path. */
  lemma ComponentsOfRender(p: Path)
    requires Clean(p)
    ensures Components(Render(p)) == p
  {
    LeadingSlash(Join(p, '/'));
    if p == [] {
      assert Split("", '/') == [""];
      assert [""][1..] == [];
    } else {
      SplitOfJoin(p, '/');
      ResolvePlain(p, []);
      assert [] + p == p;
    }
  }

  lemma {:induction false} ResolveAppends(elements: seq<string>, e: string, above: Path)
    ensures Resolve(elements + [e], above) == Resolve([e], Resolve(elements, above))
    decreases |elements|
  {
    if elements == [] {
      assert elements + [e] == [e];
    } else {
      assert (elements + [e])[1..] == elements[1..] + [e];
      var next := if elements[0] == "" || elements[0] == "." then above
                  else if elements[0] == ".." then if above == [] then [] else above[..|above| - 1]
                  else above + [elements[0]];
      ResolveAppends(elements[1..], e, next);
    }
  }

  lemma SplitAppends(name: string, e: string)
    requires '/' !in e
    ensures Split(name + "/" + e, '/') == Split(name, '/') + [e]
  {
    var parts := Split(name, '/');
    JoinOfSplit(name, '/');
    JoinAppends(parts, e, '/');
    SplitOfJoin(parts + [e], '/');
  }

  /** One element more on a path stays, steps up or steps down; nothing steps above the root. */
  lemma ComponentsAppend(name: string, e: string)
    requires '/' !in e
    ensures var p := Components(name);
      Components(name + "/" + e) ==
        if e == "" || e == "." then p else if e == ".." then if p == [] then [] else p[..|p| - 1] else p + [e]
    ensures Components("") == []
  {
    SplitAppends(name, e);
    ResolveAppends(Split(name, '/'), e, []);
    assert [e][1..] == [];
    assert Split("", '/') == [""] && [""][1..] == [];
  }

  /** No empty, "." or ".." component survives. */
  lemma ComponentsAreClean(name: string)
    ensures Clean(Components(name))
  {
    ResolveClean(Split(name, '/'), []);
  }

  lemma CanonicalIsIdempotent(path: string)
    ensures CanonicalisePath(CanonicalisePath(path)) == CanonicalisePath(path)
  {
    ComponentsAreClean("/" + path);
    LeadingSlash(CanonicalisePath(path));
    ComponentsOfRender(Components("/" + path));
  }

  /** The strings the signing tool accepts in its list are exactly the rooted strings with plain components. */
  lemma FixedPoints(x: string)
    ensures CanonicalisePath(x) == x <==> exists p :: Clean(p) && x == Render(p)
  {
    if CanonicalisePath(x) == x {
      ComponentsAreClean("/" + x);
    }
    if p :| Clean(p) && x == Render(p) {
      ComponentsOfRender(p);
      LeadingSlash(x);
    }
  }

  /** Two names share a key of the signing map exactly when they resolve to the same path. */
  lemma SameKey(a: string, b: string)
    ensures CanonicalisePath(a) == CanonicalisePath(b) <==> Components(a) == Components(b)
  {
    LeadingSlash(a);
    LeadingSlash(b);
    ComponentsAreClean(a);
    ComponentsAreClean(b);
    ComponentsOfRender(Components(a));
    ComponentsOfRender(Components(b));
  }

  /** The three spellings found in image layers, "p", "./p" and "/p", get one key. */
  lemma SpellingsShareKey(p: string)
    ensures CanonicalisePath("./" + p) == CanonicalisePath(p) == CanonicalisePath("/" + p)
  {
    LeadingSlash(p);
    SplitPrefix(".", "/" + p, '/');
    assert "." + ("/" + p) == "./" + p;
    assert ("/" + p)[1..] == p;
    var parts := Split("./" + p, '/');
    assert Split("/" + p, '/') == [""] + Split(p, '/');
    assert "." + "" == ".";
    assert ([""] + Split(p, '/'))[1..] == Split(p, '/');
    assert parts == ["."] + Split(p, '/');
    assert parts[1..] == Split(p, '/');
    SameKey("./" + p, p);
    SameKey("/" + p, p);
  }
}
