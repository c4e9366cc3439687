/**
 * The logical tree builder (`WixConfig.directory`). Resolving a masked
 * directory path walks up from the path until it meets a cached directory or
 * the root, then creates and caches the missing directories top-down, each
 * named by its segment and identified by `directory_id` of its full path.
 *
 * The identifier of a directory is a parameter `dirId` (the builder passes
 * `Mangle.DirectoryId` under its digest function), so that the facts about the
 * tree do not depend on the mangler's.
 *
 * `Resolve` states the result of the walk as a recursive function and
 * `Missing` lists the directories it creates; the imperative two-loop version
 * is `Wix.WixConfig.Directory`, proved equal to `Resolve`.
 */
module LogicalTree {
  import opened Paths
  import opened Manifest

  /** A point of the walk: the builder state, the element reached, and the path rebuilt so far by joining. */
  datatype Step = Step(state: State, handle: nat, path: string)

  /** The Directory element created for segment `part` of path `path` below element `parent`. */
  function NewDirectory(dirId: string -> string, parent: nat, path: string, part: string): Element {
    Element(Some(parent), Directory(dirId(path), Some(part)))
  }

  /**
   * One iteration of the downward loop: join the next segment, append its
   * Directory element as the last child of the element reached, cache it
   * under the joined path and move to it. The registry is not touched.
   */
  function Descend(dirId: string -> string, r: Step, part: string): (d: Step)
    ensures Grows(r.state.nodes, d.state.nodes) && |d.state.nodes| == |r.state.nodes| + 1
    ensures d.path == Join(r.path, part) && d.handle == |r.state.nodes|
    ensures d.state.nodes[d.handle] == Element(Some(r.handle), Directory(dirId(d.path), Some(part)))
    ensures d.state.dirs == r.state.dirs[d.path := d.handle]
    ensures d.state.uuids == r.state.uuids && d.state.minted == r.state.minted
  {
    var path := Join(r.path, part);
    var n := |r.state.nodes|;
    Step(r.state.(nodes := r.state.nodes + [NewDirectory(dirId, r.handle, path, part)],
                  dirs := r.state.dirs[path := n]), n, path)
  }

  /**
   * The directory element for masked path `p`: the cached one, the install
   * client element `client` for the root, or the one created below the
   * resolved parent.
   */
  function Resolve(dirId: string -> string, client: nat, s: State, p: string): (r: Step)
    decreases |p|
    ensures r.state.uuids == s.uuids && r.state.minted == s.minted
    ensures Grows(s.nodes, r.state.nodes)
  {
    if p in s.dirs then Step(s, s.dirs[p], p)
    else if Split(p).0 == p then Step(s, client, p)
    else
      var up := Resolve(dirId, client, s, Split(p).0);
      GrowsTrans(s.nodes, up.state.nodes, Descend(dirId, up, Split(p).1).state.nodes);
      Descend(dirId, up, Split(p).1)
  }

  /** The paths among `p` and its ancestors that resolving `p` creates, outermost first. */
  function Missing(s: State, p: string): (m: seq<string>)
    decreases |p|
    ensures m == [] <==> p in s.dirs || p == ""
    ensures m != [] ==> m[|m| - 1] == p
    ensures |m| <= |p|
  {
    if p in s.dirs || Split(p).0 == p then [] else Missing(s, Split(p).0) + [p]
  }

  /** `q` is `p` itself or an ancestor of `p`: a prefix of `p` followed by a separator of `p`. */
  predicate AncestorOrSelf(q: string, p: string) {
    |q| <= |p| && q == p[..|q|] && (|q| == |p| || p[|q|] == Sep)
  }

  /** The missing paths are uncached, non-empty ancestors of `p` (`p` itself included). */
  lemma {:induction false} MissingAncestors(s: State, p: string)
    requires !Anchored(p)
    ensures forall q :: q in Missing(s, p) ==> q != "" && q !in s.dirs && AncestorOrSelf(q, p)
    decreases |p|
  {
    if p !in s.dirs && p != "" {
      var head := Split(p).0;
      HeadNotAnchored(p);
      MissingAncestors(s, head);
      JoinSplit(p);
      SplitShape(p);
      forall q | q in Missing(s, head)
        ensures AncestorOrSelf(q, p)
      {
        assert AncestorOrSelf(q, head);
        if head != "" {
          assert p == head + [Sep] + Split(p).1;
          if |q| < |head| {
            assert p[..|q|] == head[..|q|];
            assert p[|q|] == head[|q|];
          } else {
            assert p[..|head|] == head;
          }
        }
      }
    }
  }

  /**
   * The missing paths form a chain ending in `p`: each is the parent path of
   * the next, and the parent path of the first is cached or is the root.
   */
  lemma {:induction false} MissingChain(s: State, p: string)
    ensures var m := Missing(s, p);
      && (forall i :: 0 < i < |m| ==> Split(m[i]).0 == m[i - 1])
      && (m != [] ==> m[|m| - 1] == p && (Split(m[0]).0 in s.dirs || Split(m[0]).0 == ""))
    decreases |p|
  {
    if p !in s.dirs && p != "" {
      MissingChain(s, Split(p).0);
    }
  }

  /** The missing paths strictly grow in length, so none is created twice. */
  lemma {:induction false} MissingGrows(s: State, p: string)
    ensures forall q :: q in Missing(s, p) ==> |q| <= |p|
    ensures forall i, j :: 0 <= i < j < |Missing(s, p)| ==> |Missing(s, p)[i]| < |Missing(s, p)[j]|
    decreases |p|
  {
    if p !in s.dirs && p != "" {
      var head := Split(p).0;
      MissingGrows(s, head);
      assert Missing(s, p) == Missing(s, head) + [p];
    }
  }

  /** Resolving only appends to the element list: one element per missing path. */
  lemma {:induction false} ResolveAppends(dirId: string -> string, client: nat, s: State, p: string)
    ensures |Resolve(dirId, client, s, p).state.nodes| == |s.nodes| + |Missing(s, p)|
    ensures Resolve(dirId, client, s, p).state.nodes[..|s.nodes|] == s.nodes
    decreases |p|
  {
    if p !in s.dirs && p != "" {
      var head := Split(p).0;
      ResolveAppends(dirId, client, s, head);
      var r0 := Resolve(dirId, client, s, head);
      assert Resolve(dirId, client, s, p).state.nodes[..|r0.state.nodes|] == r0.state.nodes;
    }
  }

  /** Everything resolving appends is a Directory element, whatever the path. */
  lemma {:induction false} ResolveAppendsDirectories(dirId: string -> string, client: nat, s: State, p: string)
    ensures forall i :: |s.nodes| <= i < |Resolve(dirId, client, s, p).state.nodes| ==>
      Resolve(dirId, client, s, p).state.nodes[i].kind.Directory?
    decreases |p|
  {
    if p !in s.dirs && p != "" {
      ResolveAppends(dirId, client, s, Split(p).0);
      ResolveAppendsDirectories(dirId, client, s, Split(p).0);
    }
  }

  /** For a path not starting with a separator, the path rebuilt by joining is the path itself. */
  lemma {:induction false} ResolveRebuilds(dirId: string -> string, client: nat, s: State, p: string)
    requires !Anchored(p)
    ensures Resolve(dirId, client, s, p).path == p
    decreases |p|
  {
    if p !in s.dirs && p != "" {
      HeadNotAnchored(p);
      ResolveRebuilds(dirId, client, s, Split(p).0);
      JoinSplit(p);
    }
  }

  /**
   * The cache of `r` keeps every entry of `s`, holds the `i`-th path of `m`
   * at the `i`-th element after those of `s`, and has no other key.
   */
  ghost predicate CachedAs(s: State, r: Step, m: seq<string>) {
    && (forall q :: q in s.dirs ==> q in r.state.dirs && r.state.dirs[q] == s.dirs[q])
    && (forall i :: 0 <= i < |m| ==> m[i] in r.state.dirs && r.state.dirs[m[i]] == |s.nodes| + i)
    && (forall q :: q in r.state.dirs ==> q in s.dirs || q in m)
  }

  lemma CachedAsStep(dirId: string -> string, s: State, r0: Step, m0: seq<string>, part: string)
    requires CachedAs(s, r0, m0) && |r0.state.nodes| == |s.nodes| + |m0|
    requires Join(r0.path, part) !in s.dirs && Join(r0.path, part) !in m0
    ensures CachedAs(s, Descend(dirId, r0, part), m0 + [Join(r0.path, part)])
  {
    var m := m0 + [Join(r0.path, part)];
    assert forall i :: 0 <= i < |m0| ==> m[i] == m0[i];
  }

  /** Resolving leaves every cached entry unchanged and caches exactly the missing paths, each at its new element. */
  lemma {:induction false} ResolveDirs(dirId: string -> string, client: nat, s: State, p: string)
    requires !Anchored(p)
    ensures CachedAs(s, Resolve(dirId, client, s, p), Missing(s, p))
    decreases |p|
  {
    if p !in s.dirs && p != "" {
      var head, tail := Split(p).0, Split(p).1;
      HeadNotAnchored(p);
      ResolveDirs(dirId, client, s, head);
      ResolveAppends(dirId, client, s, head);
      ResolveRebuilds(dirId, client, s, head);
      MissingGrows(s, head);
      JoinSplit(p);
      CachedAsStep(dirId, s, Resolve(dirId, client, s, head), Missing(s, head), tail);
    }
  }

  /** The element the upward walk stops at: the element of the nearest cached path among `p` and its ancestors, or the client element. */
  function Landing(s: State, client: nat, p: string): (h: nat)
    decreases |p|
    ensures p in s.dirs ==> h == s.dirs[p]
    ensures h == client || h in s.dirs.Values
  {
    if p in s.dirs then s.dirs[p]
    else if Split(p).0 == p then client
    else Landing(s, client, Split(p).0)
  }

  /**
   * When nothing is missing, nothing changes and the result is the element
   * the walk stopped at; otherwise it is the last element created.
   */
  lemma {:induction false} ResolveHandle(dirId: string -> string, client: nat, s: State, p: string)
    ensures Missing(s, p) == [] ==>
      Resolve(dirId, client, s, p).state == s && Resolve(dirId, client, s, p).handle == Landing(s, client, p)
    ensures Missing(s, p) != [] ==>
      Resolve(dirId, client, s, p).handle == |s.nodes| + |Missing(s, p)| - 1
  {
    if p !in s.dirs && p != "" {
      ResolveAppends(dirId, client, s, Split(p).0);
    }
  }

  /**
   * The elements from index `|s.nodes|` of `r` are the Directory elements
   * created for the paths of `m`: each is named by its path's last segment,
   * identified by `dirId` of the path, and placed under the previous new
   * element, or, for the first, under the element `top`.
   */
  ghost predicate CreatedFor(dirId: string -> string, top: nat, s: State, r: Step, m: seq<string>) {
    && |r.state.nodes| == |s.nodes| + |m|
    && forall i :: 0 <= i < |m| ==>
         r.state.nodes[|s.nodes| + i] == NewDirectory(dirId, if i == 0 then top else |s.nodes| + i - 1, m[i], Split(m[i]).1)
  }

  lemma CreatedForStep(dirId: string -> string, top: nat, s: State, r0: Step, m0: seq<string>, part: string)
    requires CreatedFor(dirId, top, s, r0, m0)
    requires m0 == [] ==> r0.handle == top
    requires m0 != [] ==> r0.handle == |s.nodes| + |m0| - 1
    requires Split(Join(r0.path, part)).1 == part
    ensures CreatedFor(dirId, top, s, Descend(dirId, r0, part), m0 + [Join(r0.path, part)])
  {
    var r := Descend(dirId, r0, part);
    var m := m0 + [Join(r0.path, part)];
    forall i | 0 <= i < |m|
      ensures r.state.nodes[|s.nodes| + i] == NewDirectory(dirId, if i == 0 then top else |s.nodes| + i - 1, m[i], Split(m[i]).1)
    {
      if i < |m0| {
        assert m[i] == m0[i];
      }
    }
  }

  /** The elements resolving `p` creates are those of its missing paths, top-down from where the walk stopped. */
  lemma {:induction false} ResolveNewNodes(dirId: string -> string, client: nat, s: State, p: string)
    requires !Anchored(p)
    ensures CreatedFor(dirId, Landing(s, client, p), s, Resolve(dirId, client, s, p), Missing(s, p))
    decreases |p|
  {
    if p in s.dirs || p == "" {
      ResolveAppends(dirId, client, s, p);
    } else {
      var head, tail := Split(p).0, Split(p).1;
      HeadNotAnchored(p);
      ResolveNewNodes(dirId, client, s, head);
      ResolveRebuilds(dirId, client, s, head);
      ResolveHandle(dirId, client, s, head);
      JoinSplit(p);
      SplitShape(p);
      SplitJoin(head, tail);
      CreatedForStep(dirId, Landing(s, client, p), s, Resolve(dirId, client, s, head), Missing(s, head), tail);
    }
  }

  /** With a sound cache and a client Directory, the walk stops at an existing Directory element. */
  lemma {:induction false} LandingSound(s: State, client: nat, p: string)
    requires DirsSound(s) && client < |s.nodes| && s.nodes[client].kind.Directory?
    ensures Landing(s, client, p) < |s.nodes| && s.nodes[Landing(s, client, p)].kind.Directory?
    decreases |p|
  {
    if p !in s.dirs && p != "" {
      LandingSound(s, client, Split(p).0);
    }
  }

  /** Directories created under an existing element keep the element list a tree. */
  lemma CreatedTree(dirId: string -> string, top: nat, s: State, r: Step, m: seq<string>)
    requires IsTree(s.nodes) && top < |s.nodes|
    requires CreatedFor(dirId, top, s, r, m)
    requires r.state.nodes[..|s.nodes|] == s.nodes
    ensures IsTree(r.state.nodes)
    ensures forall i :: |s.nodes| <= i < |r.state.nodes| ==> r.state.nodes[i].kind.Directory?
  {
    assert forall i :: 0 <= i < |s.nodes| ==> r.state.nodes[i] == s.nodes[i];
    forall i | |s.nodes| <= i < |r.state.nodes|
      ensures r.state.nodes[i].parent.Some? && r.state.nodes[i].parent.value < i
      ensures r.state.nodes[i].kind.Directory?
    {
      var j := i - |s.nodes|;
      assert r.state.nodes[|s.nodes| + j] == NewDirectory(dirId, if j == 0 then top else |s.nodes| + j - 1, m[j], Split(m[j]).1);
    }
  }

  /** A cache extended by the created Directories still names Directory elements. */
  lemma CreatedDirsSound(s: State, r: Step, m: seq<string>)
    requires DirsSound(s) && CachedAs(s, r, m)
    requires |r.state.nodes| == |s.nodes| + |m| && r.state.nodes[..|s.nodes|] == s.nodes
    requires forall i :: |s.nodes| <= i < |r.state.nodes| ==> r.state.nodes[i].kind.Directory?
    ensures DirsSound(r.state)
  {
    forall q | q in r.state.dirs
      ensures r.state.dirs[q] < |r.state.nodes| && r.state.nodes[r.state.dirs[q]].kind.Directory?
    {
      if q in s.dirs {
        assert r.state.nodes[s.dirs[q]] == s.nodes[s.dirs[q]];
      } else {
        var j :| 0 <= j < |m| && m[j] == q;
      }
    }
  }

  /** A cache extended by distinct new elements for new paths stays injective. */
  lemma CreatedDirsInjective(s: State, r: Step, m: seq<string>)
    requires DirsSound(s) && DirsInjective(s) && CachedAs(s, r, m)
    ensures DirsInjective(r.state)
  {
    forall p, q | p in r.state.dirs && q in r.state.dirs && p != q
      ensures r.state.dirs[p] != r.state.dirs[q]
    {
      if p !in s.dirs {
        var i :| 0 <= i < |m| && m[i] == p;
        if q !in s.dirs {
          var j :| 0 <= j < |m| && m[j] == q;
        }
      } else if q !in s.dirs {
        var j :| 0 <= j < |m| && m[j] == q;
      }
    }
  }

  /** Directories created under an existing element, and cached as created, keep the tree and the cache sound. */
  lemma CreatedSound(dirId: string -> string, top: nat, s: State, r: Step, m: seq<string>)
    requires IsTree(s.nodes) && DirsSound(s) && DirsInjective(s) && top < |s.nodes|
    requires CreatedFor(dirId, top, s, r, m) && CachedAs(s, r, m)
    requires r.state.nodes[..|s.nodes|] == s.nodes
    ensures IsTree(r.state.nodes) && DirsSound(r.state) && DirsInjective(r.state)
    ensures forall i :: |s.nodes| <= i < |r.state.nodes| ==> r.state.nodes[i].kind.Directory?
  {
    CreatedTree(dirId, top, s, r, m);
    CreatedDirsSound(s, r, m);
    CreatedDirsInjective(s, r, m);
  }

  /** Resolving keeps the tree and the cache well formed and lands on a Directory element. */
  lemma ResolveSound(dirId: string -> string, a: Anchors, s: State, p: string)
    requires WellFormed(s, a) && !Anchored(p)
    ensures var r := Resolve(dirId, a.client, s, p);
      WellFormed(r.state, a) && r.handle < |r.state.nodes| && r.state.nodes[r.handle].kind.Directory?
  {
    var r := Resolve(dirId, a.client, s, p);
    ResolveAppends(dirId, a.client, s, p);
    ResolveNewNodes(dirId, a.client, s, p);
    ResolveDirs(dirId, a.client, s, p);
    ResolveHandle(dirId, a.client, s, p);
    LandingSound(s, a.client, p);
    CreatedSound(dirId, Landing(s, a.client, p), s, r, Missing(s, p));
    assert forall i :: 0 <= i < |s.nodes| ==> r.state.nodes[i] == s.nodes[i];
  }

  /**
   * After resolving `p` (not starting with a separator), `p` is cached and its
   * element is the one returned, unless `p` is the uncached root, which
   * resolves to the client element with nothing created.
   */
  lemma ResolveCachesPath(dirId: string -> string, client: nat, s: State, p: string)
    requires !Anchored(p)
    ensures var r := Resolve(dirId, client, s, p);
      if p == "" && "" !in s.dirs then r == Step(s, client, "")
      else p in r.state.dirs && r.state.dirs[p] == r.handle
  {
    var m := Missing(s, p);
    ResolveHandle(dirId, client, s, p);
    ResolveDirs(dirId, client, s, p);
    MissingChain(s, p);
    if m != [] {
      assert m[|m| - 1] == p;
    }
  }

  /** Resolving the same path twice returns the same element, and the second resolution changes nothing. */
  lemma ResolveIdempotent(dirId: string -> string, client: nat, s: State, p: string)
    requires !Anchored(p)
    ensures var r1 := Resolve(dirId, client, s, p);
            var r2 := Resolve(dirId, client, r1.state, p);
            r2.state == r1.state && r2.handle == r1.handle
  {
    ResolveCachesPath(dirId, client, s, p);
  }

  /** Every cached directory's non-root ancestors are cached too. */
  ghost predicate AncestorClosed(dirs: map<string, nat>) {
    forall q, k :: q in dirs && 0 < k < |q| && q[k] == Sep ==> q[..k] in dirs
  }

  /** The non-root proper ancestors of `p` are all keys of `dirs`. */
  ghost predicate AncestorsIn(p: string, dirs: map<string, nat>) {
    forall k :: 0 < k < |p| && p[k] == Sep ==> p[..k] in dirs
  }

  /** Caching a segment below a cached (or root) head whose ancestors are cached keeps the cache closed. */
  lemma ClosedStep(dirs: map<string, nat>, head: string, tail: string, n: nat)
    requires AncestorClosed(dirs) && AncestorsIn(head, dirs) && (head == "" || head in dirs)
    requires Sep !in tail
    ensures AncestorsIn(Join(head, tail), dirs) && AncestorClosed(dirs[Join(head, tail) := n])
  {
    var key := Join(head, tail);
    if head != "" {
      assert forall k :: |head| < k < |key| ==> key[k] == tail[k - |head| - 1];
      forall k | 0 < k < |key| && key[k] == Sep
        ensures key[..k] in dirs
      {
        if k < |head| {
          assert key[..k] == head[..k];
          assert head[k] == key[k];
        } else {
          assert key[..k] == head;
        }
      }
    } else {
      assert key == tail;
      assert forall k :: 0 < k < |key| ==> key[k] == tail[k];
    }
  }

  /**
   * Resolving from a cache closed under ancestors keeps it closed, and
   * afterwards every non-root ancestor of `p` is cached.
   */
  lemma {:induction false} ResolveCachesAncestors(dirId: string -> string, client: nat, s: State, p: string)
    requires AncestorClosed(s.dirs) && !Anchored(p)
    ensures AncestorClosed(Resolve(dirId, client, s, p).state.dirs)
    ensures AncestorsIn(p, Resolve(dirId, client, s, p).state.dirs)
    decreases |p|
  {
    if p == "" {
    } else if p !in s.dirs {
      var head, tail := Split(p).0, Split(p).1;
      HeadNotAnchored(p);
      ResolveCachesAncestors(dirId, client, s, head);
      ResolveCachesPath(dirId, client, s, head);
      ResolveRebuilds(dirId, client, s, head);
      JoinSplit(p);
      SplitShape(p);
      var r0 := Resolve(dirId, client, s, head);
      ClosedStep(r0.state.dirs, head, tail, |r0.state.nodes|);
    }
  }

  /** The downward loop over a stack of segments pushed deepest first: the last one pushed is created first. */
  function Replay(dirId: string -> string, r: Step, stack: seq<string>): (q: Step)
    decreases |stack|
    ensures Grows(r.state.nodes, q.state.nodes) && |q.state.nodes| == |r.state.nodes| + |stack|
    ensures r.state.dirs.Keys <= q.state.dirs.Keys
    ensures q.state.uuids == r.state.uuids && q.state.minted == r.state.minted
  {
    if stack == [] then r
    else
      var d := Descend(dirId, r, stack[|stack| - 1]);
      GrowsTrans(r.state.nodes, d.state.nodes, Replay(dirId, d, stack[..|stack| - 1]).state.nodes);
      Replay(dirId, d, stack[..|stack| - 1])
  }

  /** One step up the upward loop: resolving a path is resolving its head and then descending by its tail. */
  lemma ReplayClimb(dirId: string -> string, client: nat, s: State, cur: string, stack: seq<string>)
    requires cur !in s.dirs && Split(cur).0 != cur
    ensures Replay(dirId, Resolve(dirId, client, s, cur), stack)
         == Replay(dirId, Resolve(dirId, client, s, Split(cur).0), stack + [Split(cur).1])
  {
    assert (stack + [Split(cur).1])[..|stack|] == stack;
  }

  /** One step of the downward loop: descending by the `i`-th pushed segment leaves the ones pushed before it. */
  lemma ReplayDescend(dirId: string -> string, r: Step, stack: seq<string>, i: nat)
    requires 0 < i <= |stack|
    ensures Replay(dirId, r, stack[..i]) == Replay(dirId, Descend(dirId, r, stack[i - 1]), stack[..i - 1])
  {
    assert stack[..i][..i - 1] == stack[..i - 1];
  }

  /** A sequence without repeated elements has as many distinct elements as positions. */
  lemma {:induction false} DistinctCard(m: seq<string>)
    requires forall i, j :: 0 <= i < j < |m| ==> m[i] != m[j]
    ensures |(set q | q in m)| == |m|
    decreases |m|
  {
    if m != [] {
      var m0 := m[..|m| - 1];
      DistinctCard(m0);
      assert (set q | q in m) == (set q | q in m0) + {m[|m| - 1]};
    }
  }

  /** A cache extended by distinct new paths has that many more keys. */
  lemma CachedCard(s: State, r: Step, m: seq<string>)
    requires CachedAs(s, r, m)
    requires forall q :: q in m ==> q !in s.dirs
    requires forall i, j :: 0 <= i < j < |m| ==> m[i] != m[j]
    ensures |r.state.dirs.Keys| == |s.dirs.Keys| + |m|
  {
    DistinctCard(m);
    assert r.state.dirs.Keys == s.dirs.Keys + (set q | q in m);
    assert s.dirs.Keys !! (set q | q in m);
  }

  /** Resolving adds one cache key per missing path. */
  lemma ResolveCountsKeys(dirId: string -> string, client: nat, s: State, p: string)
    requires !Anchored(p)
    ensures |Resolve(dirId, client, s, p).state.dirs.Keys| == |s.dirs.Keys| + |Missing(s, p)|
  {
    var m := Missing(s, p);
    ResolveDirs(dirId, client, s, p);
    MissingAncestors(s, p);
    MissingGrows(s, p);
    assert forall i, j :: 0 <= i < j < |m| ==> m[i] != m[j];
    CachedCard(s, Resolve(dirId, client, s, p), m);
  }

  /** Resolving adds one Directory element per missing path. */
  lemma ResolveCountsDirectories(dirId: string -> string, client: nat, s: State, p: string)
    ensures Count(Resolve(dirId, client, s, p).state.nodes, TDirectory) == Count(s.nodes, TDirectory) + |Missing(s, p)|
  {
    ResolveAppends(dirId, client, s, p);
    ResolveAppendsDirectories(dirId, client, s, p);
    CountExtension(s.nodes, Resolve(dirId, client, s, p).state.nodes, TDirectory);
  }

  /** Resolving adds no element of any other tag than Directory. */
  lemma ResolveKeepsOtherCounts(dirId: string -> string, client: nat, s: State, p: string, t: Tag)
    requires t != TDirectory
    ensures Count(Resolve(dirId, client, s, p).state.nodes, t) == Count(s.nodes, t)
  {
    ResolveAppends(dirId, client, s, p);
    ResolveAppendsDirectories(dirId, client, s, p);
    CountUnchanged(s.nodes, Resolve(dirId, client, s, p).state.nodes, t);
  }

  /** Resolving reads only the element list and the cache: with another registry and supply count it builds the same. */
  lemma {:induction false} ResolveIgnoresRegistry(dirId: string -> string, client: nat, s: State,
                                                  uuids: map<string, string>, minted: nat, p: string)
    ensures var r := Resolve(dirId, client, s, p);
      Resolve(dirId, client, s.(uuids := uuids, minted := minted), p) == r.(state := r.state.(uuids := uuids, minted := minted))
    decreases |p|
  {
    if p !in s.dirs && Split(p).0 != p {
      ResolveIgnoresRegistry(dirId, client, s, uuids, minted, Split(p).0);
    }
  }
}
