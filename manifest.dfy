/**
 * The manifest tree and the mutable state of the builder.
 *
 * The element tree is append-only: `nodes` lists every element in creation
 * order and each element records the index of its parent, which was created
 * before it. The children of an element, in document order, are the elements
 * that name it as parent, in index order. `dirs` caches directory elements by
 * masked path, `uuids` is the identifier registry, and `minted` counts the
 * identifiers drawn from the fresh-identifier supply so far.
 */
module Manifest {

  datatype Option<T> = None | Some(value: T)

  /** One typed element per tag the builder emits, with the attributes it sets. */
  datatype Kind =
    | Wix(xmlns: string)
    | Product(name: string, language: string, codepage: string, version: string,
              manufacturer: string, id: string, upgradeCode: string)
    | Package(id: string, keywords: string, description: string, comments: string,
              manufacturer: string, installerVersion: string, languages: string,
              compressed: string, summaryCodepage: string)
    | Media(id: string, cabinet: string, embedCab: string, diskPrompt: string)
    | Property(id: string, value: string)
    | Directory(id: string, displayName: Option<string>)
    | Feature(id: string, title: string, description: string)
    | Component(id: string, guid: string)
    | RegistryValue(root: string, key: string, valueType: string, value: string, keyPath: string)
    | RemoveFolder(id: string, on: string)
    | ComponentRef(id: string)
    | File(id: string, name: string, diskId: string, source: string, keyPath: string)
    | Shortcut(target: string, attrs: map<string, string>)

  datatype Element = Element(parent: Option<nat>, kind: Kind)

  datatype State = State(nodes: seq<Element>, dirs: map<string, nat>,
                         uuids: map<string, string>, minted: nat)

  /** Indices of the fixed elements the scanner attaches to. */
  datatype Anchors = Anchors(client: nat, feature: nat, menu: nat)

  /** `r` keeps every element of `s` at its index: the element list only grows. */
  predicate Grows(s: seq<Element>, r: seq<Element>) {
    |s| <= |r| && r[..|s|] == s
  }

  lemma GrowsTrans(a: seq<Element>, b: seq<Element>, c: seq<Element>)
    requires Grows(a, b) && Grows(b, c)
    ensures Grows(a, c)
  {
    assert c[..|a|] == c[..|b|][..|a|];
  }

  datatype Tag = TDirectory | TComponent | TFile | TShortcut | TComponentRef | TOther

  function TagOf(k: Kind): Tag {
    match k
    case Directory(_, _) => TDirectory
    case Component(_, _) => TComponent
    case File(_, _, _, _, _) => TFile
    case Shortcut(_, _) => TShortcut
    case ComponentRef(_) => TComponentRef
    case _ => TOther
  }

  /** The number of elements of `nodes` with tag `t`. */
  function Count(nodes: seq<Element>, t: Tag): (n: nat)
    ensures n <= |nodes|
  {
    if nodes == [] then 0
    else Count(nodes[..|nodes| - 1], t) + (if TagOf(nodes[|nodes| - 1].kind) == t then 1 else 0)
  }

  lemma {:induction false} CountConcat(a: seq<Element>, b: seq<Element>, t: Tag)
    ensures Count(a + b, t) == Count(a, t) + Count(b, t)
    decreases |b|
  {
    if b == [] {
      assert a + b == a;
    } else {
      assert (a + b)[..|a + b| - 1] == a + b[..|b| - 1];
      CountConcat(a, b[..|b| - 1], t);
    }
  }

  lemma {:induction false} CountNone(s: seq<Element>, t: Tag)
    requires forall i :: 0 <= i < |s| ==> TagOf(s[i].kind) != t
    ensures Count(s, t) == 0
  {
    if s != [] {
      CountNone(s[..|s| - 1], t);
    }
  }

  lemma {:induction false} CountAll(s: seq<Element>, t: Tag)
    requires forall i :: 0 <= i < |s| ==> TagOf(s[i].kind) == t
    ensures Count(s, t) == |s|
  {
    if s != [] {
      CountAll(s[..|s| - 1], t);
    }
  }

  /** Extending a list by elements all of tag `t` raises the count of `t` by their number. */
  lemma CountExtension(a: seq<Element>, b: seq<Element>, t: Tag)
    requires |a| <= |b| && b[..|a|] == a
    requires forall i :: |a| <= i < |b| ==> TagOf(b[i].kind) == t
    ensures Count(b, t) == Count(a, t) + (|b| - |a|)
  {
    var suffix := b[|a|..];
    assert b == a + suffix;
    CountConcat(a, suffix, t);
    CountAll(suffix, t);
  }

  /** Extending a list by elements none of tag `t` leaves the count of `t` unchanged. */
  lemma CountUnchanged(a: seq<Element>, b: seq<Element>, t: Tag)
    requires |a| <= |b| && b[..|a|] == a
    requires forall i :: |a| <= i < |b| ==> TagOf(b[i].kind) != t
    ensures Count(b, t) == Count(a, t)
  {
    var suffix := b[|a|..];
    assert b == a + suffix;
    CountConcat(a, suffix, t);
    CountNone(suffix, t);
  }

  /** Every element but the first has a parent, and every parent precedes its child. */
  ghost predicate IsTree(nodes: seq<Element>) {
    forall i :: 0 <= i < |nodes| ==>
      (nodes[i].parent.None? <==> i == 0) &&
      (nodes[i].parent.Some? ==> nodes[i].parent.value < i)
  }

  /** Every cached directory path names a Directory element. */
  ghost predicate DirsSound(s: State) {
    forall q :: q in s.dirs ==> s.dirs[q] < |s.nodes| && s.nodes[s.dirs[q]].kind.Directory?
  }

  /** No two cached paths share a Directory element. */
  ghost predicate DirsInjective(s: State) {
    forall p, q :: p in s.dirs && q in s.dirs && p != q ==> s.dirs[p] != s.dirs[q]
  }

  ghost predicate AnchorsSound(s: State, a: Anchors) {
    && a.client < |s.nodes| && s.nodes[a.client].kind.Directory?
    && a.feature < |s.nodes| && s.nodes[a.feature].kind.Feature?
    && a.menu < |s.nodes| && s.nodes[a.menu].kind.Component?
  }

  ghost predicate WellFormed(s: State, a: Anchors) {
    IsTree(s.nodes) && DirsSound(s) && DirsInjective(s) && AnchorsSound(s, a)
  }

  /** Three and four elements count one for each of the tag. */
  lemma CountThree(x: Element, y: Element, z: Element, t: Tag)
    ensures Count([x, y, z], t) == Count([x], t) + Count([y], t) + Count([z], t)
  {
    assert [x, y, z][..2] == [x, y];
    assert [x, y][..1] == [x];
  }

  lemma CountFour(w: Element, x: Element, y: Element, z: Element, t: Tag)
    ensures Count([w, x, y, z], t) == Count([w], t) + Count([x], t) + Count([y], t) + Count([z], t)
  {
    assert [w, x, y, z][..3] == [w, x, y];
    CountThree(w, x, y, t);
  }
}
