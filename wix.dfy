/**
 * The builder object `WixConfig`: the manifest tree, the directory cache, the
 * identifier registry and the logical directories are fields that its methods
 * update in place. Each method is proved against the function of the same
 * step in the other modules, so the properties proved there carry over.
 *
 * The identifier manglers (`directory_id`, `component_id`, `file_id`),
 * `uuid.uuid4`, `re.match` and `os.walk` are the constants `names`, `uuid4`,
 * `matches` and `fs` of the object, and `minted` counts the GUIDs drawn. The
 * source's manglers are `Mangled(sha1)`; the proofs hold for any naming.
 */
module Wix {
  import opened Paths
  import opened Mangle
  import opened Manifest
  import opened Registry
  import opened LogicalTree
  import opened Scanner
  import opened Skeleton

  /** `ignore_path`: try the patterns in order and stop at the first that matches the masked path. */
  method IsIgnored(matches: Matcher, ignore: seq<string>, path: string) returns (r: bool)
    ensures r == IgnorePath(matches, ignore, path)
    ensures r <==> exists i :: 0 <= i < |ignore| && matches(ignore[i], path)
  {
    for k := 0 to |ignore|
      invariant forall i :: 0 <= i < k ==> !matches(ignore[i], path)
    {
      if matches(ignore[k], path) {
        return true;
      }
    }
    return false;
  }

  class WixConfig {
    const config: Config
    const names: Naming
    const uuid4: nat -> string
    const matches: Matcher
    const fs: string -> seq<WalkEntry>

    var nodes: seq<Element>
    var dirs: map<string, nat>
    var uuids: map<string, string>
    var minted: nat
    var logical: map<string, nat>
    var product: nat
    var feature: nat
    var menuComponent: nat

    /** The builder state the pure model works on. */
    function Model(): State
      reads this
    {
      State(nodes, dirs, uuids, minted)
    }

    /** The naming, supplies and fixed elements a scan works with. */
    function Environment(): Env
      reads this
      requires "MailpileClient" in logical
    {
      Env(names, uuid4, matches, Anchors(logical["MailpileClient"], feature, menuComponent))
    }

    /** `xml_append`: a new element of kind `k` as the last child of element `parent`; returns its index. */
    method AppendElement(parent: nat, k: Kind) returns (index: nat)
      modifies this`nodes
      ensures nodes == old(nodes) + [Element(Some(parent), k)]
      ensures index == |old(nodes)|
    {
      index := |nodes|;
      nodes := nodes + [Element(Some(parent), k)];
    }

    /** `logical_node`: a logical directory below the logical directory `parentId`; nothing happens when that is not known. */
    method LogicalNode(parentId: string, id: string, name: Option<string>) returns (ok: bool)
      modifies this`nodes, this`logical
      ensures ok <==> parentId in old(logical)
      ensures ok ==> nodes == old(nodes) + [Element(Some(old(logical)[parentId]), Kind.Directory(id, name))]
      ensures ok ==> logical == old(logical)[id := |old(nodes)|]
      ensures !ok ==> nodes == old(nodes) && logical == old(logical)
    {
      if parentId !in logical {
        return false;
      }
      var index := AppendElement(logical[parentId], Kind.Directory(id, name));
      logical := logical[id := index];
      ok := true;
    }

    /** `logical_root`: a logical directory directly below the Product. */
    method LogicalRoot(id: string, name: Option<string>)
      modifies this`nodes, this`logical
      ensures nodes == old(nodes) + [Element(Some(product), Kind.Directory(id, name))]
      ensures logical == old(logical)[id := |old(nodes)|]
    {
      var index := AppendElement(product, Kind.Directory(id, name));
      logical := logical[id := index];
    }

    /** `uuid`: the archived GUID of `path`, or a fresh one stored under it. */
    method Uuid(path: string) returns (guid: string)
      modifies this`uuids, this`minted
      ensures (Model(), guid) == GetOrCreate(uuid4, old(Model()), path)
    {
      if path in uuids {
        guid := uuids[path];
      } else {
        guid := uuid4(minted);
        uuids := uuids[path := guid];
        minted := minted + 1;
      }
    }

    /**
     * `directory`: climb from `path` to the nearest cached ancestor (or to
     * the root, which stands for the install client directory), then create
     * and cache a Directory element for each segment on the way back down.
     */
    method Directory(path: string) returns (parent: nat)
      requires "MailpileClient" in logical
      modifies this`nodes, this`dirs
      ensures var r := Resolve(names.dir, logical["MailpileClient"], old(Model()), path);
        Model() == r.state && parent == r.handle
    {
      ghost var s0 := Model();
      ghost var dirId := names.dir;
      ghost var client := logical["MailpileClient"];
      var cur := path;
      var stack: seq<string> := [];
      while cur !in dirs && Split(cur).0 != cur
        invariant Model() == s0
        invariant Replay(dirId, Resolve(dirId, client, s0, cur), stack) == Resolve(dirId, client, s0, path)
        decreases |cur|
      {
        ReplayClimb(dirId, client, s0, cur, stack);
        var parts := Split(cur);
        cur := parts.0;
        stack := stack + [parts.1];
      }
      if cur in dirs {
        parent := dirs[cur];
      } else {
        parent := logical["MailpileClient"];
      }
      assert Resolve(dirId, client, s0, cur) == Step(Model(), parent, cur);
      var rebuilt;
      parent, rebuilt := CreateDirectories(parent, cur, stack);
    }

    /**
     * The downward loop of `directory`: below element `parent` for path
     * `path`, create and cache a Directory element for each segment of
     * `stack`, the last pushed first; returns the last element and the
     * rebuilt path.
     */
    method CreateDirectories(parent: nat, path: string, stack: seq<string>) returns (handle: nat, rebuilt: string)
      modifies this`nodes, this`dirs
      ensures Step(Model(), handle, rebuilt) == Replay(names.dir, Step(old(Model()), parent, path), stack)
    {
      handle, rebuilt := parent, path;
      var i := |stack|;
      assert stack[..i] == stack;
      while i > 0
        invariant 0 <= i <= |stack|
        invariant Replay(names.dir, Step(Model(), handle, rebuilt), stack[..i])
               == Replay(names.dir, Step(old(Model()), parent, path), stack)
      {
        ghost var before := Step(Model(), handle, rebuilt);
        ReplayDescend(names.dir, before, stack, i);
        var part := stack[i - 1];
        rebuilt := Join(rebuilt, part);
        handle := AppendElement(handle, Kind.Directory(names.dir(rebuilt), Some(part)));
        dirs := dirs[rebuilt := handle];
        assert Step(Model(), handle, rebuilt) == Descend(names.dir, before, part);
        i := i - 1;
      }
    }

    /** The body of the inner loop of `scan_group` for one file of directory `parent`. */
    method ProcessFile(g: Settings, parent: string, filename: string)
      requires "MailpileClient" in logical
      modifies this`nodes, this`dirs, this`uuids, this`minted
      ensures Model() == ScanFile(Environment(), g, old(Model()), parent, filename)
    {
      var localPath := Join(parent, filename);
      var path := MaskPath(g.mask, localPath);
      var ignored := IsIgnored(matches, g.ignore, path);
      if ignored {
        return;
      }
      var parentDir := Directory(MaskPath(g.mask, parent));
      var guid := Uuid(path);
      AddRecords(g, parentDir, guid, parent, filename);
    }

    /** The Component, File, optional Shortcut and ComponentRef of a retained file, appended in that order. */
    method AddRecords(g: Settings, dir: nat, guid: string, parent: string, filename: string)
      requires "MailpileClient" in logical
      modifies this`nodes
      ensures nodes == old(nodes) + FileRecords(Environment(), g, |old(nodes)|, dir, guid, parent, filename)
    {
      var localPath := Join(parent, filename);
      var path := MaskPath(g.mask, localPath);
      var componentId := names.component(path);
      var component := AppendElement(dir, Component(componentId, guid));
      var fileId := names.file(path);
      var file := AppendElement(component, File(fileId, filename, "1", localPath, "yes"));
      if path in g.shortcuts {
        var shortcut := AppendElement(menuComponent, Shortcut(ShortcutTarget(fileId), g.shortcuts[path]));
      }
      var componentRef := AppendElement(feature, ComponentRef(componentId));
    }

    /** The inner loop of `scan_group`: the files of one directory of the walk, in order. */
    method ScanDirectory(g: Settings, w: WalkEntry)
      requires "MailpileClient" in logical
      modifies this`nodes, this`dirs, this`uuids, this`minted
      ensures Model() == ScanFiles(Environment(), g, old(Model()), w.parent, w.files)
    {
      ghost var s0 := Model();
      for j := 0 to |w.files|
        invariant Model() == ScanFiles(Environment(), g, s0, w.parent, w.files[..j])
      {
        ScanFilesSnoc(Environment(), g, s0, w.parent, w.files, j);
        ProcessFile(g, w.parent, w.files[j]);
      }
      assert w.files[..|w.files|] == w.files;
    }

    /** `scan_group`: every file of every directory of the walk of `g.root`, in walk order; `name` is not used. */
    method ScanGroup(name: string, g: Group)
      requires "MailpileClient" in logical
      modifies this`nodes, this`dirs, this`uuids, this`minted
      ensures Model() == ScanWalk(Environment(), SettingsOf(g), old(Model()), fs(g.root))
    {
      var mask := Split(g.root).0;
      var settings := Settings(mask, g.ignore, g.shortcuts);
      ghost var s0 := Model();
      var walk := fs(g.root);
      for i := 0 to |walk|
        invariant Model() == ScanWalk(Environment(), settings, s0, walk[..i])
      {
        ScanWalkSnoc(Environment(), settings, s0, walk, i);
        ScanDirectory(settings, walk[i]);
      }
      assert walk[..|walk|] == walk;
    }

    /** The Product and its first children in `__init__`, up to the Feature. */
    method AddProduct()
      requires nodes == [Element(None, Wix(WixNamespace))] && logical == map[]
      modifies this`nodes, this`logical, this`product, this`feature
      ensures nodes == old(nodes) + ProductNodes(config)
      ensures logical == map["TARGETDIR" := TargetDirIndex]
      ensures product == ProductIndex && feature == FeatureIndex
    {
      product := AppendElement(0, Product("Mailpile Email Client " + config.version, config.languages, config.codepage,
                                          config.version, config.manufacturer, config.productId, config.productCode));
      var package := AppendElement(product, Package("*", "Installer", "Mailpile " + config.version + " Installer",
                                                    "Mailpile is under the AGPL license", config.manufacturer,
                                                    config.installerVersion, config.languages, "yes", config.codepage));
      var media := AppendElement(product, Media("1", "mailpile.cab", "yes", "CD-ROM #1"));
      var diskPrompt := AppendElement(product, Property("DiskPrompt", "Mailpile " + config.version + " Media [1]"));
      LogicalRoot("TARGETDIR", Some("SourceDir"));
      feature := AppendElement(product, Feature("Complete", "Mailpile " + config.version, "Complete Mailpile Install"));
    }

    /** The logical directories of `__init__` below `TARGETDIR`: the install directory chain, then the menu chain. */
    method AddLogical()
      requires |nodes| == TargetDirIndex + 2 && logical == map["TARGETDIR" := TargetDirIndex]
      modifies this`nodes, this`logical
      ensures nodes == old(nodes) + LogicalNodes(config)
      ensures logical == SkeletonLogical()
    {
      AddInstallDirs();
      AddMenuDirs();
      assert LogicalNodes(config)[..3] + LogicalNodes(config)[3..] == LogicalNodes(config);
    }

    /** `ProgramFilesFolder` > `MailpileEHF` > `MailpileClient` below `TARGETDIR`. */
    method AddInstallDirs()
      requires |nodes| == TargetDirIndex + 2 && logical == map["TARGETDIR" := TargetDirIndex]
      modifies this`nodes, this`logical
      ensures nodes == old(nodes) + LogicalNodes(config)[..3]
      ensures logical == map["TARGETDIR" := TargetDirIndex, "ProgramFilesFolder" := ProgramFilesIndex,
                             "MailpileEHF" := EhfIndex, "MailpileClient" := ClientIndex]
    {
      ghost var n0 := nodes;
      ghost var l := LogicalNodes(config);
      var ok := LogicalNode("TARGETDIR", "ProgramFilesFolder", Some("ProgramFiles"));
      assert logical == map["TARGETDIR" := TargetDirIndex, "ProgramFilesFolder" := ProgramFilesIndex];
      assert nodes == n0 + l[..1];
      ok := LogicalNode("ProgramFilesFolder", "MailpileEHF", Some("Mailpile ehf"));
      assert logical == map["TARGETDIR" := TargetDirIndex, "ProgramFilesFolder" := ProgramFilesIndex, "MailpileEHF" := EhfIndex];
      assert nodes == n0 + l[..2];
      ok := LogicalNode("MailpileEHF", "MailpileClient", Some("Mailpile Client " + config.version));
    }

    /** `ProgramMenuFolder` > `ProgramMenuDir` below `TARGETDIR`. */
    method AddMenuDirs()
      requires |nodes| == ClientIndex + 1
      requires logical == map["TARGETDIR" := TargetDirIndex, "ProgramFilesFolder" := ProgramFilesIndex,
                              "MailpileEHF" := EhfIndex, "MailpileClient" := ClientIndex]
      modifies this`nodes, this`logical
      ensures nodes == old(nodes) + LogicalNodes(config)[3..]
      ensures logical == SkeletonLogical()
    {
      ghost var n0 := nodes;
      ghost var l := LogicalNodes(config);
      var ok := LogicalNode("TARGETDIR", "ProgramMenuFolder", None);
      assert nodes == n0 + l[3..4];
      ok := LogicalNode("ProgramMenuFolder", "ProgramMenuDir", Some("Mailpile " + config.version));
    }

    /** The menu component of `__init__`, with its GUID, its two children and the Feature's reference to it. */
    method AddMenu()
      requires nodes == HeadNodes(config) && dirs == map[] && minted == 0
      requires logical == SkeletonLogical() && feature == FeatureIndex
      modifies this`nodes, this`uuids, this`minted, this`menuComponent
      ensures Model() == Initial(config, uuid4, old(uuids))
      ensures menuComponent == MenuComponentIndex
    {
      var guid := Uuid(MenuPath);
      menuComponent := AppendElement(logical["ProgramMenuDir"], Component("ProgramMenuDir", guid));
      var menuRegKey := AppendElement(menuComponent, RegistryValue("HKCU", "Software\\[Manufacturer]\\[ProductName]", "string", "1", "yes"));
      var menuCleanup := AppendElement(menuComponent, RemoveFolder("ProgramMenuDir", "uninstall"));
      var menuRef := AppendElement(feature, ComponentRef("ProgramMenuDir"));
    }

    /** The last loop of `__init__`: every configured group, in configuration order. */
    method ScanGroups()
      requires logical == SkeletonLogical() && feature == FeatureIndex && menuComponent == MenuComponentIndex
      modifies this`nodes, this`dirs, this`uuids, this`minted
      ensures Model() == Skeleton.ScanGroups(names, uuid4, matches, old(Model()), config.groups, fs)
    {
      ghost var s0 := Model();
      assert Environment() == GroupEnv(names, uuid4, matches);
      for k := 0 to |config.groups|
        invariant Model() == Skeleton.ScanGroups(names, uuid4, matches, s0, config.groups[..k], fs)
      {
        assert config.groups[..k + 1][..k] == config.groups[..k];
        ScanGroup(config.groups[k].0, config.groups[k].1);
      }
      assert config.groups[..|config.groups|] == config.groups;
    }

    /** `__init__`: the fixed part of the manifest, then a scan of every configured group in order. */
    constructor (config: Config, uuids0: map<string, string>, names: Naming, uuid4: nat -> string,
                 matches: Matcher, fs: string -> seq<WalkEntry>)
      ensures Model() == Skeleton.ScanGroups(names, uuid4, matches, Initial(config, uuid4, uuids0), config.groups, fs)
      ensures logical == SkeletonLogical()
      ensures product == ProductIndex && feature == FeatureIndex && menuComponent == MenuComponentIndex
    {
      this.config := config;
      this.names := names;
      this.uuid4 := uuid4;
      this.matches := matches;
      this.fs := fs;
      dirs := map[];
      logical := map[];
      uuids := uuids0;
      minted := 0;
      nodes := [Element(None, Wix(WixNamespace))];
      product := 0;
      feature := 0;
      menuComponent := 0;
      new;
      AddProduct();
      AddLogical();
      AddMenu();
      ScanGroups();
    }
  }
}
