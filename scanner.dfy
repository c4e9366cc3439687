/**
 * The group scanner (`WixConfig.scan_group`) as functions over the builder
 * state. Every file of the walk whose masked path is not ignored gets a
 * Component (identified by `component_id` of the masked path, with the
 * registry GUID of that path) under the directory of its masked parent, one
 * File child, an optional Shortcut in the menu component, and one
 * ComponentRef in the feature. An ignored file changes nothing.
 *
 * `os.walk` is an input sequence of (directory, file names) entries, and
 * `re.match` an abstract matcher.
 */
module Scanner {
  import opened Paths
  import opened Mangle
  import opened Manifest
  import opened Registry
  import opened LogicalTree

  /** `re.match(expr, path)` succeeds: the pattern matches at the start of the path. */
  type Matcher = (string, string) -> bool

  /** One entry of the walk: a directory and the names of the files directly in it. */
  datatype WalkEntry = WalkEntry(parent: string, files: seq<string>)

  /** What a scan takes besides the state: the naming, the GUID supply, the matcher and the fixed elements. */
  datatype Env = Env(names: Naming, uuid4: nat -> string, matches: Matcher, anchors: Anchors)

  /** The settings of one group: the mask (the head of its root), its ignore patterns and its shortcut table. */
  datatype Settings = Settings(mask: string, ignore: seq<string>, shortcuts: map<string, map<string, string>>)

  /** `ignore_path`: some pattern of the list, tried in order, matches the masked path. */
  function IgnorePath(matches: Matcher, ignore: seq<string>, path: string): (r: bool)
    ensures r <==> exists i :: 0 <= i < |ignore| && matches(ignore[i], path)
  {
    if ignore == [] then false
    else matches(ignore[0], path) || IgnorePath(matches, ignore[1..], path)
  }

  /**
   * The masked path of file `filename` of directory `parent`: below the mask,
   * the masked directory, a separator and the file name.
   */
  function FilePath(g: Settings, parent: string, filename: string): (r: string)
    ensures |g.mask| < |parent| ==> r == MaskPath(g.mask, parent) + [Sep] + filename
  {
    var full := Join(parent, filename);
    if |g.mask| < |parent| then
      assert full[|g.mask| + 1..] == parent[|g.mask| + 1..] + [Sep] + filename;
      MaskPath(g.mask, full)
    else MaskPath(g.mask, full)
  }

  /** The Shortcut's target reference to a file identifier; the identifier can be read back from it. */
  function ShortcutTarget(fileId: string): (r: string)
    ensures |r| == |fileId| + 3 && r[2..|r| - 1] == fileId
  {
    "[#" + fileId + "]"
  }

  /**
   * The elements a retained file appends once its directory element `dir` is
   * resolved and its GUID `guid` looked up, given that the Component will sit
   * at index `c`: the Component under `dir`, its File, a Shortcut in the menu
   * component when the masked path has a shortcut entry, and a ComponentRef in
   * the feature, in that order.
   */
  function FileRecords(e: Env, g: Settings, c: nat, dir: nat, guid: string, parent: string, filename: string): (r: seq<Element>)
    ensures |r| == if FilePath(g, parent, filename) in g.shortcuts then 4 else 3
    ensures TagOf(r[0].kind) == TComponent && TagOf(r[1].kind) == TFile && TagOf(r[|r| - 1].kind) == TComponentRef
    ensures |r| == 4 ==> TagOf(r[2].kind) == TShortcut
  {
    var path := FilePath(g, parent, filename);
    var cid := e.names.component(path);
    var fid := e.names.file(path);
    [Element(Some(dir), Component(cid, guid)),
     Element(Some(c), File(fid, filename, "1", Join(parent, filename), "yes"))]
    + (if path in g.shortcuts then [Element(Some(e.anchors.menu), Shortcut(ShortcutTarget(fid), g.shortcuts[path]))] else [])
    + [Element(Some(e.anchors.feature), ComponentRef(cid))]
  }

  /** Append the elements of a retained file, the Component first; nothing but the element list changes. */
  function AddFile(e: Env, g: Settings, s: State, dir: nat, guid: string, parent: string, filename: string): (r: State)
    ensures Grows(s.nodes, r.nodes) && |r.nodes| == |s.nodes| + |FileRecords(e, g, |s.nodes|, dir, guid, parent, filename)|
    ensures r.dirs == s.dirs && r.uuids == s.uuids && r.minted == s.minted
  {
    s.(nodes := s.nodes + FileRecords(e, g, |s.nodes|, dir, guid, parent, filename))
  }

  /** The body of the inner loop of `scan_group` for one file. */
  function ScanFile(e: Env, g: Settings, s: State, parent: string, filename: string): (r: State)
    ensures IgnorePath(e.matches, g.ignore, FilePath(g, parent, filename)) ==> r == s
    ensures Grows(s.nodes, r.nodes) && s.minted <= r.minted
  {
    var path := FilePath(g, parent, filename);
    if IgnorePath(e.matches, g.ignore, path) then s
    else
      var d := Resolve(e.names.dir, e.anchors.client, s, MaskPath(g.mask, parent));
      var (s1, guid) := GetOrCreate(e.uuid4, d.state, path);
      GrowsTrans(s.nodes, s1.nodes, AddFile(e, g, s1, d.handle, guid, parent, filename).nodes);
      AddFile(e, g, s1, d.handle, guid, parent, filename)
  }

  /** The inner loop: the files of one directory, in order. No element already there is altered. */
  function ScanFiles(e: Env, g: Settings, s: State, parent: string, files: seq<string>): (r: State)
    decreases |files|
    ensures Grows(s.nodes, r.nodes) && s.minted <= r.minted
  {
    if files == [] then s
    else
      var before := ScanFiles(e, g, s, parent, files[..|files| - 1]);
      GrowsTrans(s.nodes, before.nodes, ScanFile(e, g, before, parent, files[|files| - 1]).nodes);
      ScanFile(e, g, before, parent, files[|files| - 1])
  }

  /** The outer loop: the entries of the walk, in order. No element already there is altered. */
  function ScanWalk(e: Env, g: Settings, s: State, walk: seq<WalkEntry>): (r: State)
    decreases |walk|
    ensures Grows(s.nodes, r.nodes) && s.minted <= r.minted
  {
    if walk == [] then s
    else
      var w := walk[|walk| - 1];
      var before := ScanWalk(e, g, s, walk[..|walk| - 1]);
      GrowsTrans(s.nodes, before.nodes, ScanFiles(e, g, before, w.parent, w.files).nodes);
      ScanFiles(e, g, before, w.parent, w.files)
  }

  /** One more file of the directory: the fold of a prefix extended by one step. */
  lemma ScanFilesSnoc(e: Env, g: Settings, s: State, parent: string, files: seq<string>, j: nat)
    requires j < |files|
    ensures ScanFiles(e, g, s, parent, files[..j + 1]) == ScanFile(e, g, ScanFiles(e, g, s, parent, files[..j]), parent, files[j])
  {
    assert files[..j + 1][..j] == files[..j];
  }

  /** One more directory of the walk: the fold of a prefix extended by one step. */
  lemma ScanWalkSnoc(e: Env, g: Settings, s: State, walk: seq<WalkEntry>, i: nat)
    requires i < |walk|
    ensures ScanWalk(e, g, s, walk[..i + 1]) == ScanFiles(e, g, ScanWalk(e, g, s, walk[..i]), walk[i].parent, walk[i].files)
  {
    assert walk[..i + 1][..i] == walk[..i];
  }

  /** The masked paths of the files of one directory that are not ignored, in order. */
  function RetainedFiles(e: Env, g: Settings, parent: string, files: seq<string>): seq<string>
    decreases |files|
  {
    if files == [] then []
    else
      var path := FilePath(g, parent, files[|files| - 1]);
      RetainedFiles(e, g, parent, files[..|files| - 1])
        + (if IgnorePath(e.matches, g.ignore, path) then [] else [path])
  }

  /** The masked paths of all retained files of the walk, in order. */
  function Retained(e: Env, g: Settings, walk: seq<WalkEntry>): seq<string>
    decreases |walk|
  {
    if walk == [] then []
    else Retained(e, g, walk[..|walk| - 1]) + RetainedFiles(e, g, walk[|walk| - 1].parent, walk[|walk| - 1].files)
  }

  /** The number of paths of `paths` that have an entry in the shortcut table. */
  function ShortcutCount(shortcuts: map<string, map<string, string>>, paths: seq<string>): nat
    decreases |paths|
  {
    if paths == [] then 0
    else ShortcutCount(shortcuts, paths[..|paths| - 1]) + (if paths[|paths| - 1] in shortcuts then 1 else 0)
  }

  /** The layout of the elements `AddFile` appends, and that it changes nothing else. */
  lemma AddFileElements(e: Env, g: Settings, s: State, dir: nat, guid: string, parent: string, filename: string)
    ensures var path := FilePath(g, parent, filename);
      var r := AddFile(e, g, s, dir, guid, parent, filename);
      var n := |s.nodes|;
      var k := if path in g.shortcuts then 1 else 0;
      && |r.nodes| == n + 3 + k
      && r.nodes[..n] == s.nodes
      && r.dirs == s.dirs && r.uuids == s.uuids && r.minted == s.minted
      && r.nodes[n] == Element(Some(dir), Component(e.names.component(path), guid))
      && r.nodes[n + 1] == Element(Some(n), File(e.names.file(path), filename, "1", Join(parent, filename), "yes"))
      && (path in g.shortcuts ==>
            r.nodes[n + 2] == Element(Some(e.anchors.menu), Shortcut(ShortcutTarget(e.names.file(path)), g.shortcuts[path])))
      && r.nodes[n + 2 + k] == Element(Some(e.anchors.feature), ComponentRef(e.names.component(path)))
  {
  }

  /**
   * A retained file appends, after the directories its parent needed, its
   * Component (identified by `component_id` of the masked path, with the GUID
   * the registry now holds for that path) under the parent's directory
   * element, one File child of that Component, a Shortcut in the menu
   * component exactly when the masked path has a shortcut entry, and one
   * ComponentRef in the feature; it creates no cache entry of its own.
   */
  lemma ScanFileElements(e: Env, g: Settings, s: State, parent: string, filename: string)
    requires !IgnorePath(e.matches, g.ignore, FilePath(g, parent, filename))
    ensures var path := FilePath(g, parent, filename);
      var d := Resolve(e.names.dir, e.anchors.client, s, MaskPath(g.mask, parent));
      var r := ScanFile(e, g, s, parent, filename);
      var n := |d.state.nodes|;
      var k := if path in g.shortcuts then 1 else 0;
      && |r.nodes| == n + 3 + k
      && r.nodes[..n] == d.state.nodes
      && r.dirs == d.state.dirs
      && path in r.uuids
      && r.nodes[n] == Element(Some(d.handle), Component(e.names.component(path), r.uuids[path]))
      && r.nodes[n + 1] == Element(Some(n), File(e.names.file(path), filename, "1", Join(parent, filename), "yes"))
      && (path in g.shortcuts ==>
            r.nodes[n + 2] == Element(Some(e.anchors.menu), Shortcut(ShortcutTarget(e.names.file(path)), g.shortcuts[path])))
      && r.nodes[n + 2 + k] == Element(Some(e.anchors.feature), ComponentRef(e.names.component(path)))
  {
    var d := Resolve(e.names.dir, e.anchors.client, s, MaskPath(g.mask, parent));
    var path := FilePath(g, parent, filename);
    var (s1, guid) := GetOrCreate(e.uuid4, d.state, path);
    AddFileElements(e, g, s1, d.handle, guid, parent, filename);
  }

  /** The elements of tag `t` that the retained files `paths` add: one Component, File and ComponentRef each, and their shortcuts. */
  function Added(t: Tag, shortcuts: map<string, map<string, string>>, paths: seq<string>): nat {
    match t
    case TComponent => |paths|
    case TFile => |paths|
    case TComponentRef => |paths|
    case TShortcut => ShortcutCount(shortcuts, paths)
    case _ => 0
  }

  lemma {:induction false} ShortcutCountConcat(shortcuts: map<string, map<string, string>>, a: seq<string>, b: seq<string>)
    ensures ShortcutCount(shortcuts, a + b) == ShortcutCount(shortcuts, a) + ShortcutCount(shortcuts, b)
    decreases |b|
  {
    if b == [] {
      assert a + b == a;
    } else {
      assert (a + b)[..|a + b| - 1] == a + b[..|b| - 1];
      ShortcutCountConcat(shortcuts, a, b[..|b| - 1]);
    }
  }

  lemma AddedConcat(t: Tag, shortcuts: map<string, map<string, string>>, a: seq<string>, b: seq<string>)
    ensures Added(t, shortcuts, a + b) == Added(t, shortcuts, a) + Added(t, shortcuts, b)
  {
    ShortcutCountConcat(shortcuts, a, b);
  }

  /** A file's records are one Component, File and ComponentRef, and a Shortcut when its path has an entry. */
  lemma FileRecordsCount(e: Env, g: Settings, c: nat, dir: nat, guid: string, parent: string, filename: string, t: Tag)
    ensures Count(FileRecords(e, g, c, dir, guid, parent, filename), t) == Added(t, g.shortcuts, [FilePath(g, parent, filename)])
  {
    var path := FilePath(g, parent, filename);
    var cid, fid := e.names.component(path), e.names.file(path);
    var comp := Element(Some(dir), Component(cid, guid));
    var file := Element(Some(c), File(fid, filename, "1", Join(parent, filename), "yes"));
    var ref := Element(Some(e.anchors.feature), ComponentRef(cid));
    assert ShortcutCount(g.shortcuts, [path]) == if path in g.shortcuts then 1 else 0;
    if path in g.shortcuts {
      var sc := Element(Some(e.anchors.menu), Shortcut(ShortcutTarget(fid), g.shortcuts[path]));
      assert FileRecords(e, g, c, dir, guid, parent, filename) == [comp, file, sc, ref];
      CountFour(comp, file, sc, ref, t);
    } else {
      assert FileRecords(e, g, c, dir, guid, parent, filename) == [comp, file, ref];
      CountThree(comp, file, ref, t);
    }
  }

  /** `AddFile` adds exactly one Component, File and ComponentRef, a Shortcut when the path has an entry, and nothing else. */
  lemma AddFileCounts(e: Env, g: Settings, s: State, dir: nat, guid: string, parent: string, filename: string, t: Tag)
    ensures Count(AddFile(e, g, s, dir, guid, parent, filename).nodes, t)
         == Count(s.nodes, t) + Added(t, g.shortcuts, [FilePath(g, parent, filename)])
  {
    FileRecordsCount(e, g, |s.nodes|, dir, guid, parent, filename, t);
    CountConcat(s.nodes, FileRecords(e, g, |s.nodes|, dir, guid, parent, filename), t);
  }

  /**
   * A file adds one Component, one File and one ComponentRef, and a Shortcut
   * when its masked path has a shortcut entry, if it is retained, and none of
   * them if it is ignored.
   */
  lemma ScanFileCounts(e: Env, g: Settings, s: State, parent: string, filename: string, t: Tag)
    requires t != TDirectory
    ensures Count(ScanFile(e, g, s, parent, filename).nodes, t)
         == Count(s.nodes, t) + Added(t, g.shortcuts, RetainedFiles(e, g, parent, [filename]))
  {
    var path := FilePath(g, parent, filename);
    assert RetainedFiles(e, g, parent, [filename]) == if IgnorePath(e.matches, g.ignore, path) then [] else [path];
    if !IgnorePath(e.matches, g.ignore, path) {
      var d := Resolve(e.names.dir, e.anchors.client, s, MaskPath(g.mask, parent));
      var (s1, guid) := GetOrCreate(e.uuid4, d.state, path);
      ResolveKeepsOtherCounts(e.names.dir, e.anchors.client, s, MaskPath(g.mask, parent), t);
      AddFileCounts(e, g, s1, d.handle, guid, parent, filename, t);
    }
  }

  /**
   * A file adds as many Directory elements as cache keys: the directories of
   * its parent that were missing, and nothing when it is ignored.
   */
  lemma ScanFileDirectories(e: Env, g: Settings, s: State, parent: string, filename: string)
    requires !Anchored(MaskPath(g.mask, parent))
    ensures var r := ScanFile(e, g, s, parent, filename);
      Count(r.nodes, TDirectory) + |s.dirs.Keys| == Count(s.nodes, TDirectory) + |r.dirs.Keys|
  {
    var path := FilePath(g, parent, filename);
    if !IgnorePath(e.matches, g.ignore, path) {
      var p := MaskPath(g.mask, parent);
      var d := Resolve(e.names.dir, e.anchors.client, s, p);
      var (s1, guid) := GetOrCreate(e.uuid4, d.state, path);
      ResolveCountsKeys(e.names.dir, e.anchors.client, s, p);
      ResolveCountsDirectories(e.names.dir, e.anchors.client, s, p);
      AddFileCounts(e, g, s1, d.handle, guid, parent, filename, TDirectory);
    }
  }

  /**
   * The registry gains the masked path of a retained file and nothing for an
   * ignored one; archived GUIDs never change.
   */
  lemma ScanFileRegistry(e: Env, g: Settings, s: State, parent: string, filename: string)
    ensures var r := ScanFile(e, g, s, parent, filename);
      && r.uuids.Keys == s.uuids.Keys + (set q | q in RetainedFiles(e, g, parent, [filename]))
      && (forall q :: q in s.uuids ==> r.uuids[q] == s.uuids[q])
  {
    var path := FilePath(g, parent, filename);
    assert RetainedFiles(e, g, parent, [filename]) == if IgnorePath(e.matches, g.ignore, path) then [] else [path];
  }

  /** Under the freshness assumption on the GUID supply, scanning a file keeps it. */
  lemma ScanFileKeepsFresh(e: Env, g: Settings, s: State, parent: string, filename: string)
    requires FreshSupply(e.uuid4, s)
    ensures FreshSupply(e.uuid4, ScanFile(e, g, s, parent, filename))
  {
    var path := FilePath(g, parent, filename);
    if !IgnorePath(e.matches, g.ignore, path) {
      var d := Resolve(e.names.dir, e.anchors.client, s, MaskPath(g.mask, parent));
      GetOrCreateKeepsFresh(e.uuid4, d.state, path);
    }
  }

  /** Each record of a file hangs under an element created before it. */
  lemma FileRecordsParents(e: Env, g: Settings, c: nat, dir: nat, guid: string, parent: string, filename: string)
    requires dir < c && e.anchors.menu < c && e.anchors.feature < c
    ensures var recs := FileRecords(e, g, c, dir, guid, parent, filename);
      forall j :: 0 <= j < |recs| ==> recs[j].parent.Some? && recs[j].parent.value < c + j
  {
  }

  /** Appending a file's records under a Directory element keeps the state well formed. */
  lemma AddFileSound(e: Env, g: Settings, s: State, dir: nat, guid: string, parent: string, filename: string)
    requires WellFormed(s, e.anchors) && dir < |s.nodes|
    ensures WellFormed(AddFile(e, g, s, dir, guid, parent, filename), e.anchors)
  {
    var n := |s.nodes|;
    var recs := FileRecords(e, g, n, dir, guid, parent, filename);
    var r := AddFile(e, g, s, dir, guid, parent, filename);
    FileRecordsParents(e, g, n, dir, guid, parent, filename);
    assert forall i :: 0 <= i < n ==> r.nodes[i] == s.nodes[i];
    assert forall i :: n <= i < |r.nodes| ==> r.nodes[i] == recs[i - n];
  }

  /** Scanning a file whose masked parent does not start with a separator keeps the state well formed. */
  lemma ScanFileSound(e: Env, g: Settings, s: State, parent: string, filename: string)
    requires WellFormed(s, e.anchors) && !Anchored(MaskPath(g.mask, parent))
    ensures WellFormed(ScanFile(e, g, s, parent, filename), e.anchors)
  {
    var path := FilePath(g, parent, filename);
    if !IgnorePath(e.matches, g.ignore, path) {
      var d := Resolve(e.names.dir, e.anchors.client, s, MaskPath(g.mask, parent));
      ResolveSound(e.names.dir, e.anchors, s, MaskPath(g.mask, parent));
      var (s1, guid) := GetOrCreate(e.uuid4, d.state, path);
      AddFileSound(e, g, s1, d.handle, guid, parent, filename);
    }
  }

  /** The last file's contribution to the retained paths of a directory. */
  lemma RetainedFilesLast(e: Env, g: Settings, parent: string, files: seq<string>)
    requires files != []
    ensures RetainedFiles(e, g, parent, files)
         == RetainedFiles(e, g, parent, files[..|files| - 1]) + RetainedFiles(e, g, parent, [files[|files| - 1]])
  {
    assert [files[|files| - 1]][..0] == [];
  }

  /** Over one directory, the counts grow by what its retained files add. */
  lemma {:induction false} ScanFilesCounts(e: Env, g: Settings, s: State, parent: string, files: seq<string>, t: Tag)
    requires t != TDirectory
    ensures Count(ScanFiles(e, g, s, parent, files).nodes, t)
         == Count(s.nodes, t) + Added(t, g.shortcuts, RetainedFiles(e, g, parent, files))
    decreases |files|
  {
    if files != [] {
      var init, last := files[..|files| - 1], files[|files| - 1];
      ScanFilesCounts(e, g, s, parent, init, t);
      ScanFileCounts(e, g, ScanFiles(e, g, s, parent, init), parent, last, t);
      RetainedFilesLast(e, g, parent, files);
      AddedConcat(t, g.shortcuts, RetainedFiles(e, g, parent, init), RetainedFiles(e, g, parent, [last]));
    }
  }

  /**
   * Over the whole walk, the counts grow by what the retained files add: one
   * Component, File and ComponentRef per retained file, one Shortcut per
   * retained file with a shortcut entry, and nothing else but directories.
   */
  lemma {:induction false} ScanWalkCounts(e: Env, g: Settings, s: State, walk: seq<WalkEntry>, t: Tag)
    requires t != TDirectory
    ensures Count(ScanWalk(e, g, s, walk).nodes, t) == Count(s.nodes, t) + Added(t, g.shortcuts, Retained(e, g, walk))
    decreases |walk|
  {
    if walk != [] {
      var init, w := walk[..|walk| - 1], walk[|walk| - 1];
      ScanWalkCounts(e, g, s, init, t);
      ScanFilesCounts(e, g, ScanWalk(e, g, s, init), w.parent, w.files, t);
      AddedConcat(t, g.shortcuts, Retained(e, g, init), RetainedFiles(e, g, w.parent, w.files));
    }
  }

  /** Every directory of the walk, masked, does not start with a separator. */
  ghost predicate RelativeWalk(g: Settings, walk: seq<WalkEntry>) {
    forall i :: 0 <= i < |walk| ==> !Anchored(MaskPath(g.mask, walk[i].parent))
  }

  lemma {:induction false} ScanFilesDirectories(e: Env, g: Settings, s: State, parent: string, files: seq<string>)
    requires !Anchored(MaskPath(g.mask, parent))
    ensures var r := ScanFiles(e, g, s, parent, files);
      Count(r.nodes, TDirectory) + |s.dirs.Keys| == Count(s.nodes, TDirectory) + |r.dirs.Keys|
    decreases |files|
  {
    if files != [] {
      var init := files[..|files| - 1];
      ScanFilesDirectories(e, g, s, parent, init);
      ScanFileDirectories(e, g, ScanFiles(e, g, s, parent, init), parent, files[|files| - 1]);
    }
  }

  /**
   * Over the whole walk, every Directory element added comes with its own new
   * cache key: the number of Directory elements minus the number of cached
   * paths does not change.
   */
  lemma {:induction false} ScanWalkDirectories(e: Env, g: Settings, s: State, walk: seq<WalkEntry>)
    requires RelativeWalk(g, walk)
    ensures var r := ScanWalk(e, g, s, walk);
      Count(r.nodes, TDirectory) + |s.dirs.Keys| == Count(s.nodes, TDirectory) + |r.dirs.Keys|
    decreases |walk|
  {
    if walk != [] {
      var init, w := walk[..|walk| - 1], walk[|walk| - 1];
      assert RelativeWalk(g, init) by {
        assert forall i :: 0 <= i < |init| ==> init[i] == walk[i];
      }
      ScanWalkDirectories(e, g, s, init);
      ScanFilesDirectories(e, g, ScanWalk(e, g, s, init), w.parent, w.files);
    }
  }

  /** Two registry steps that each keep every entry and add the keys of `a`, then of `b`, add the keys of `a + b`. */
  lemma RegistryGrows(m0: map<string, string>, m1: map<string, string>, m2: map<string, string>, a: seq<string>, b: seq<string>)
    requires m1.Keys == m0.Keys + (set q | q in a) && (forall q :: q in m0 ==> m1[q] == m0[q])
    requires m2.Keys == m1.Keys + (set q | q in b) && (forall q :: q in m1 ==> m2[q] == m1[q])
    ensures m2.Keys == m0.Keys + (set q | q in a + b) && (forall q :: q in m0 ==> m2[q] == m0[q])
  {
    assert (set q | q in a + b) == (set q | q in a) + (set q | q in b);
  }

  lemma {:induction false} ScanFilesRegistry(e: Env, g: Settings, s: State, parent: string, files: seq<string>)
    ensures var r := ScanFiles(e, g, s, parent, files);
      && r.uuids.Keys == s.uuids.Keys + (set q | q in RetainedFiles(e, g, parent, files))
      && (forall q :: q in s.uuids ==> r.uuids[q] == s.uuids[q])
    decreases |files|
  {
    if files != [] {
      var init, last := files[..|files| - 1], files[|files| - 1];
      var before := ScanFiles(e, g, s, parent, init);
      ScanFilesRegistry(e, g, s, parent, init);
      ScanFileRegistry(e, g, before, parent, last);
      RetainedFilesLast(e, g, parent, files);
      RegistryGrows(s.uuids, before.uuids, ScanFile(e, g, before, parent, last).uuids,
                    RetainedFiles(e, g, parent, init), RetainedFiles(e, g, parent, [last]));
    }
  }

  /**
   * Over the whole walk, the registry gains exactly the masked paths of the
   * retained files, and no archived GUID changes.
   */
  lemma {:induction false} ScanWalkRegistry(e: Env, g: Settings, s: State, walk: seq<WalkEntry>)
    ensures var r := ScanWalk(e, g, s, walk);
      && r.uuids.Keys == s.uuids.Keys + (set q | q in Retained(e, g, walk))
      && (forall q :: q in s.uuids ==> r.uuids[q] == s.uuids[q])
    decreases |walk|
  {
    if walk != [] {
      var init, w := walk[..|walk| - 1], walk[|walk| - 1];
      ScanWalkRegistry(e, g, s, init);
      ScanFilesRegistry(e, g, ScanWalk(e, g, s, init), w.parent, w.files);
    }
  }

  lemma {:induction false} ScanFilesKeepsFresh(e: Env, g: Settings, s: State, parent: string, files: seq<string>)
    requires FreshSupply(e.uuid4, s)
    ensures FreshSupply(e.uuid4, ScanFiles(e, g, s, parent, files))
    decreases |files|
  {
    if files != [] {
      var init := files[..|files| - 1];
      ScanFilesKeepsFresh(e, g, s, parent, init);
      ScanFileKeepsFresh(e, g, ScanFiles(e, g, s, parent, init), parent, files[|files| - 1]);
    }
  }

  /** Under the freshness assumption on the GUID supply, the registry stays collision-free over the whole walk. */
  lemma {:induction false} ScanWalkKeepsFresh(e: Env, g: Settings, s: State, walk: seq<WalkEntry>)
    requires FreshSupply(e.uuid4, s)
    ensures FreshSupply(e.uuid4, ScanWalk(e, g, s, walk))
    decreases |walk|
  {
    if walk != [] {
      var init, w := walk[..|walk| - 1], walk[|walk| - 1];
      ScanWalkKeepsFresh(e, g, s, init);
      ScanFilesKeepsFresh(e, g, ScanWalk(e, g, s, init), w.parent, w.files);
    }
  }

  lemma {:induction false} ScanFilesSound(e: Env, g: Settings, s: State, parent: string, files: seq<string>)
    requires WellFormed(s, e.anchors) && !Anchored(MaskPath(g.mask, parent))
    ensures WellFormed(ScanFiles(e, g, s, parent, files), e.anchors)
    decreases |files|
  {
    if files != [] {
      var init := files[..|files| - 1];
      ScanFilesSound(e, g, s, parent, init);
      ScanFileSound(e, g, ScanFiles(e, g, s, parent, init), parent, files[|files| - 1]);
    }
  }

  /** Scanning a walk whose masked directories do not start with a separator keeps the state well formed. */
  lemma {:induction false} ScanWalkSound(e: Env, g: Settings, s: State, walk: seq<WalkEntry>)
    requires WellFormed(s, e.anchors) && RelativeWalk(g, walk)
    ensures WellFormed(ScanWalk(e, g, s, walk), e.anchors)
    decreases |walk|
  {
    if walk != [] {
      var init, w := walk[..|walk| - 1], walk[|walk| - 1];
      assert RelativeWalk(g, init) by {
        assert forall i :: 0 <= i < |init| ==> init[i] == walk[i];
      }
      ScanWalkSound(e, g, s, init);
      ScanFilesSound(e, g, ScanWalk(e, g, s, init), w.parent, w.files);
    }
  }

  /**
   * A file keeps the directory cache closed under ancestors: after it, the
   * cache holds its masked directory and every non-root ancestor of it.
   */
  lemma ScanFileClosed(e: Env, g: Settings, s: State, parent: string, filename: string)
    requires AncestorClosed(s.dirs) && !Anchored(MaskPath(g.mask, parent))
    ensures var r := ScanFile(e, g, s, parent, filename);
      && AncestorClosed(r.dirs)
      && (!IgnorePath(e.matches, g.ignore, FilePath(g, parent, filename)) ==>
            (MaskPath(g.mask, parent) == "" || MaskPath(g.mask, parent) in r.dirs) && AncestorsIn(MaskPath(g.mask, parent), r.dirs))
  {
    var m := MaskPath(g.mask, parent);
    ResolveCachesAncestors(e.names.dir, e.anchors.client, s, m);
    ResolveCachesPath(e.names.dir, e.anchors.client, s, m);
  }

  lemma {:induction false} ScanFilesClosed(e: Env, g: Settings, s: State, parent: string, files: seq<string>)
    requires AncestorClosed(s.dirs) && !Anchored(MaskPath(g.mask, parent))
    ensures AncestorClosed(ScanFiles(e, g, s, parent, files).dirs)
    decreases |files|
  {
    if files != [] {
      var init := files[..|files| - 1];
      ScanFilesClosed(e, g, s, parent, init);
      ScanFileClosed(e, g, ScanFiles(e, g, s, parent, init), parent, files[|files| - 1]);
    }
  }

  /** Over a walk whose masked directories do not start with a separator, the cache stays closed under ancestors. */
  lemma {:induction false} ScanWalkClosed(e: Env, g: Settings, s: State, walk: seq<WalkEntry>)
    requires AncestorClosed(s.dirs) && RelativeWalk(g, walk)
    ensures AncestorClosed(ScanWalk(e, g, s, walk).dirs)
    decreases |walk|
  {
    if walk != [] {
      var init, w := walk[..|walk| - 1], walk[|walk| - 1];
      assert RelativeWalk(g, init) by {
        assert forall i :: 0 <= i < |init| ==> init[i] == walk[i];
      }
      ScanWalkClosed(e, g, s, init);
      ScanFilesClosed(e, g, ScanWalk(e, g, s, init), w.parent, w.files);
    }
  }

  /** Scanning a file keeps every registry entry. */
  lemma ScanFileExtends(e: Env, g: Settings, s: State, parent: string, filename: string)
    ensures Extends(s.uuids, ScanFile(e, g, s, parent, filename).uuids)
  {
  }

  lemma {:induction false} ScanFilesExtends(e: Env, g: Settings, s: State, parent: string, files: seq<string>)
    ensures Extends(s.uuids, ScanFiles(e, g, s, parent, files).uuids)
    decreases |files|
  {
    if files != [] {
      var init := files[..|files| - 1];
      var before := ScanFiles(e, g, s, parent, init);
      ScanFilesExtends(e, g, s, parent, init);
      ScanFileExtends(e, g, before, parent, files[|files| - 1]);
      ExtendsTrans(s.uuids, before.uuids, ScanFile(e, g, before, parent, files[|files| - 1]).uuids);
    }
  }

  lemma {:induction false} ScanWalkExtends(e: Env, g: Settings, s: State, walk: seq<WalkEntry>)
    ensures Extends(s.uuids, ScanWalk(e, g, s, walk).uuids)
    decreases |walk|
  {
    if walk != [] {
      var w := walk[|walk| - 1];
      var before := ScanWalk(e, g, s, walk[..|walk| - 1]);
      ScanWalkExtends(e, g, s, walk[..|walk| - 1]);
      ScanFilesExtends(e, g, before, w.parent, w.files);
      ExtendsTrans(s.uuids, before.uuids, ScanFiles(e, g, before, w.parent, w.files).uuids);
    }
  }

  /**
   * A second run `s2` keeps pace with a first run `s1`: the same elements and
   * cache, the registry `u` (which keeps every entry of the first run's) and
   * the supply count `m`, so it has drawn no GUID of its own.
   */
  ghost predicate Rerun(s1: State, s2: State, u: map<string, string>, m: nat) {
    s1.nodes == s2.nodes && s1.dirs == s2.dirs && s2.uuids == u && s2.minted == m && Extends(s1.uuids, u)
  }

  /**
   * Rescanning a file with a registry that already holds every GUID the first
   * scan ended with finds its GUID there, so it appends the same elements
   * whatever the supply, and leaves the registry as it is.
   */
  lemma ScanFileRerun(e: Env, uuid4: nat -> string, g: Settings, s1: State, s2: State,
                      u: map<string, string>, m: nat, parent: string, filename: string)
    requires Rerun(s1, s2, u, m) && Extends(ScanFile(e, g, s1, parent, filename).uuids, u)
    ensures Rerun(ScanFile(e, g, s1, parent, filename), ScanFile(e.(uuid4 := uuid4), g, s2, parent, filename), u, m)
  {
    var path := FilePath(g, parent, filename);
    if !IgnorePath(e.matches, g.ignore, path) {
      var p := MaskPath(g.mask, parent);
      assert s2 == s1.(uuids := u, minted := m);
      ResolveIgnoresRegistry(e.names.dir, e.anchors.client, s1, u, m, p);
      var d := Resolve(e.names.dir, e.anchors.client, s1, p);
      var (t1, guid) := GetOrCreate(e.uuid4, d.state, path);
      assert path in u && u[path] == guid;
      assert FileRecords(e.(uuid4 := uuid4), g, |d.state.nodes|, d.handle, guid, parent, filename)
          == FileRecords(e, g, |d.state.nodes|, d.handle, guid, parent, filename);
    }
  }

  lemma {:induction false} ScanFilesRerun(e: Env, uuid4: nat -> string, g: Settings, s1: State, s2: State,
                                          u: map<string, string>, m: nat, parent: string, files: seq<string>)
    requires Rerun(s1, s2, u, m) && Extends(ScanFiles(e, g, s1, parent, files).uuids, u)
    ensures Rerun(ScanFiles(e, g, s1, parent, files), ScanFiles(e.(uuid4 := uuid4), g, s2, parent, files), u, m)
    decreases |files|
  {
    if files != [] {
      var init, last := files[..|files| - 1], files[|files| - 1];
      var before := ScanFiles(e, g, s1, parent, init);
      ScanFileExtends(e, g, before, parent, last);
      ExtendsTrans(before.uuids, ScanFile(e, g, before, parent, last).uuids, u);
      ScanFilesRerun(e, uuid4, g, s1, s2, u, m, parent, init);
      ScanFileRerun(e, uuid4, g, before, ScanFiles(e.(uuid4 := uuid4), g, s2, parent, init), u, m, parent, last);
    }
  }

  lemma {:induction false} ScanWalkRerun(e: Env, uuid4: nat -> string, g: Settings, s1: State, s2: State,
                                         u: map<string, string>, m: nat, walk: seq<WalkEntry>)
    requires Rerun(s1, s2, u, m) && Extends(ScanWalk(e, g, s1, walk).uuids, u)
    ensures Rerun(ScanWalk(e, g, s1, walk), ScanWalk(e.(uuid4 := uuid4), g, s2, walk), u, m)
    decreases |walk|
  {
    if walk != [] {
      var init, w := walk[..|walk| - 1], walk[|walk| - 1];
      var before := ScanWalk(e, g, s1, init);
      ScanFilesExtends(e, g, before, w.parent, w.files);
      ExtendsTrans(before.uuids, ScanFiles(e, g, before, w.parent, w.files).uuids, u);
      ScanWalkRerun(e, uuid4, g, s1, s2, u, m, init);
      ScanFilesRerun(e, uuid4, g, before, ScanWalk(e.(uuid4 := uuid4), g, s2, init), u, m, w.parent, w.files);
    }
  }
}
