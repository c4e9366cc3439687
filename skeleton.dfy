/**
 * The fixed part of the manifest that `WixConfig.__init__` builds before any
 * group is scanned: the Wix root, the Product with its Package, Media and
 * DiskPrompt Property, the logical directories `TARGETDIR` >
 * `ProgramFilesFolder` > `MailpileEHF` > `MailpileClient` and `TARGETDIR` >
 * `ProgramMenuFolder` > `ProgramMenuDir`, the Feature, and the menu Component
 * with its RegistryValue, RemoveFolder and the Feature's ComponentRef.
 * Then every configured group is scanned, in configuration order.
 */
module Skeleton {
  import opened Paths
  import opened Mangle
  import opened Manifest
  import opened Registry
  import opened Scanner
  import opened LogicalTree

  /** One entry of `config['groups']`: the group's GUID (unused by the scan), its root, ignore patterns and shortcut table. */
  datatype Group = Group(uuid: string, root: string, ignore: seq<string>, shortcuts: map<string, map<string, string>>)

  /** The configuration keys the builder reads; `groups` lists the groups in dictionary iteration order. */
  datatype Config = Config(version: string, languages: string, codepage: string, manufacturer: string,
                           productId: string, productCode: string, installerVersion: string,
                           groups: seq<(string, Group)>)

  const WixNamespace: string := "http://schemas.microsoft.com/wix/2006/wi"

  /** The registry key of the menu component's GUID. */
  const MenuPath: string := "\\windows\\ProgramMenuDir"

  /** Indices of the fixed elements, in creation order. */
  const ProductIndex: nat := 1
  const TargetDirIndex: nat := 5
  const FeatureIndex: nat := 6
  const ProgramFilesIndex: nat := 7
  const EhfIndex: nat := 8
  const ClientIndex: nat := 9
  const MenuFolderIndex: nat := 10
  const MenuDirIndex: nat := 11
  const MenuComponentIndex: nat := 12

  /**
   * The scan settings of a group: the mask is the head of its root, so the
   * root itself masks to its last segment.
   */
  function SettingsOf(g: Group): (r: Settings)
    ensures r.ignore == g.ignore && r.shortcuts == g.shortcuts
    ensures Sep in g.root && Split(g.root).1 != "" ==> MaskPath(r.mask, g.root) == Split(g.root).1
  {
    var r := Settings(Split(g.root).0, g.ignore, g.shortcuts);
    if Sep in g.root && Split(g.root).1 != "" then
      MaskedRelativeToParent(g.root, "");
      r
    else r
  }

  /** The logical directories, by identifier. */
  function SkeletonLogical(): map<string, nat> {
    map["TARGETDIR" := TargetDirIndex, "ProgramFilesFolder" := ProgramFilesIndex, "MailpileEHF" := EhfIndex,
        "MailpileClient" := ClientIndex, "ProgramMenuFolder" := MenuFolderIndex, "ProgramMenuDir" := MenuDirIndex]
  }

  /** The Product with its Package, Media and DiskPrompt Property, the logical root `TARGETDIR` and the Feature. */
  function ProductNodes(c: Config): seq<Element> {
    [ Element(Some(0), Product("Mailpile Email Client " + c.version, c.languages, c.codepage, c.version,
                               c.manufacturer, c.productId, c.productCode)),
      Element(Some(ProductIndex), Package("*", "Installer", "Mailpile " + c.version + " Installer",
                                          "Mailpile is under the AGPL license", c.manufacturer,
                                          c.installerVersion, c.languages, "yes", c.codepage)),
      Element(Some(ProductIndex), Media("1", "mailpile.cab", "yes", "CD-ROM #1")),
      Element(Some(ProductIndex), Property("DiskPrompt", "Mailpile " + c.version + " Media [1]")),
      Element(Some(ProductIndex), Directory("TARGETDIR", Some("SourceDir"))),
      Element(Some(ProductIndex), Feature("Complete", "Mailpile " + c.version, "Complete Mailpile Install")) ]
  }

  /** The logical directories below `TARGETDIR`. */
  function LogicalNodes(c: Config): seq<Element> {
    [ Element(Some(TargetDirIndex), Directory("ProgramFilesFolder", Some("ProgramFiles"))),
      Element(Some(ProgramFilesIndex), Directory("MailpileEHF", Some("Mailpile ehf"))),
      Element(Some(EhfIndex), Directory("MailpileClient", Some("Mailpile Client " + c.version))),
      Element(Some(TargetDirIndex), Directory("ProgramMenuFolder", None)),
      Element(Some(MenuFolderIndex), Directory("ProgramMenuDir", Some("Mailpile " + c.version))) ]
  }

  /**
   * The Product's elements sit at the indices the builder later refers to:
   * each has a parent created before it, `TARGETDIR` is at `TargetDirIndex`
   * and the Feature at `FeatureIndex`.
   */
  lemma ProductLayout(c: Config)
    ensures var r := ProductNodes(c);
      && |r| == 6 && r[0].kind.Product?
      && (forall i :: 0 <= i < |r| ==> r[i].parent.Some? && r[i].parent.value < ProductIndex + i)
      && r[TargetDirIndex - ProductIndex].kind == Directory("TARGETDIR", Some("SourceDir"))
      && r[FeatureIndex - ProductIndex].kind.Feature? && r[FeatureIndex - ProductIndex].kind.id == "Complete"
  {
  }

  /** The logical directories are Directory elements with earlier parents, `MailpileClient` and `ProgramMenuDir` at their indices. */
  lemma LogicalLayout(c: Config)
    ensures var r := LogicalNodes(c);
      && |r| == 5
      && (forall i :: 0 <= i < |r| ==> r[i].parent.Some? && r[i].parent.value < ProgramFilesIndex + i && r[i].kind.Directory?)
      && r[ClientIndex - ProgramFilesIndex].kind.id == "MailpileClient"
      && r[MenuDirIndex - ProgramFilesIndex].kind.id == "ProgramMenuDir"
  {
  }

  /** The menu Component carries the GUID looked up for it, and the Feature's last reference names that Component. */
  lemma MenuLayout(guid: string)
    ensures var r := MenuNodes(guid);
      && |r| == 4 && r[0].kind.Component? && r[0].kind.guid == guid
      && (forall i :: 0 <= i < |r| ==> r[i].parent.Some? && r[i].parent.value < MenuComponentIndex + i)
      && r[3] == Element(Some(FeatureIndex), ComponentRef(r[0].kind.id))
  {
  }

  /** The fixed elements created before the menu component's GUID is looked up: the Wix root, then the two groups above. */
  function HeadNodes(c: Config): seq<Element> {
    [Element(None, Wix(WixNamespace))] + ProductNodes(c) + LogicalNodes(c)
  }

  /** The menu component, its two children and the Feature's reference to it. */
  function MenuNodes(guid: string): seq<Element> {
    [ Element(Some(MenuDirIndex), Component("ProgramMenuDir", guid)),
      Element(Some(MenuComponentIndex), RegistryValue("HKCU", "Software\\[Manufacturer]\\[ProductName]", "string", "1", "yes")),
      Element(Some(MenuComponentIndex), RemoveFolder("ProgramMenuDir", "uninstall")),
      Element(Some(FeatureIndex), ComponentRef("ProgramMenuDir")) ]
  }

  /** The state after the fixed part, starting from the archived registry `uuids` and no GUID drawn. */
  function Initial(c: Config, uuid4: nat -> string, uuids: map<string, string>): (r: State)
    ensures Grows(HeadNodes(c), r.nodes) && |r.nodes| == |HeadNodes(c)| + 4
    ensures r.dirs == map[]
  {
    var (s, guid) := GetOrCreate(uuid4, State(HeadNodes(c), map[], uuids, 0), MenuPath);
    s.(nodes := s.nodes + MenuNodes(guid))
  }

  /** The anchors the scanner attaches to. */
  function SkeletonAnchors(): Anchors {
    Anchors(ClientIndex, FeatureIndex, MenuComponentIndex)
  }

  /** The scan of the configured groups, in order, each over the walk `fs` yields for its root. */
  function ScanGroups(names: Naming, uuid4: nat -> string, matches: Matcher, s: State,
                      groups: seq<(string, Group)>, fs: string -> seq<WalkEntry>): (r: State)
    decreases |groups|
    ensures Grows(s.nodes, r.nodes) && s.minted <= r.minted
  {
    if groups == [] then s
    else
      var g := groups[|groups| - 1].1;
      var before := ScanGroups(names, uuid4, matches, s, groups[..|groups| - 1], fs);
      var after := ScanWalk(Env(names, uuid4, matches, SkeletonAnchors()), SettingsOf(g), before, fs(g.root));
      GrowsTrans(s.nodes, before.nodes, after.nodes);
      after
  }

  /** The fixed part is a well-formed tree with an empty directory cache, and its anchors are in place. */
  lemma InitialWellFormed(c: Config, uuid4: nat -> string, uuids: map<string, string>)
    ensures var s := Initial(c, uuid4, uuids);
      WellFormed(s, SkeletonAnchors()) && s.dirs == map[] && |s.nodes| == 16 && s.minted <= 1
  {
    var s := Initial(c, uuid4, uuids);
    assert forall i :: 0 <= i < 12 ==> s.nodes[i] == HeadNodes(c)[i];
    assert forall i :: 12 <= i < 16 ==> s.nodes[i] == MenuNodes(GetOrCreate(uuid4, State(HeadNodes(c), map[], uuids, 0), MenuPath).1)[i - 12];
  }

  /**
   * The logical directories each carry their own identifier and form the
   * chains `TARGETDIR` > `ProgramFilesFolder` > `MailpileEHF` >
   * `MailpileClient` and `TARGETDIR` > `ProgramMenuFolder` >
   * `ProgramMenuDir`, with `TARGETDIR` under the Product.
   */
  lemma InitialLogicalChain(c: Config, uuid4: nat -> string, uuids: map<string, string>)
    ensures var s := Initial(c, uuid4, uuids);
      var l := SkeletonLogical();
      && (forall id :: id in l ==> l[id] < |s.nodes| && s.nodes[l[id]].kind.Directory? && s.nodes[l[id]].kind.id == id)
      && s.nodes[l["TARGETDIR"]].parent == Some(ProductIndex)
      && s.nodes[l["ProgramFilesFolder"]].parent == Some(l["TARGETDIR"])
      && s.nodes[l["MailpileEHF"]].parent == Some(l["ProgramFilesFolder"])
      && s.nodes[l["MailpileClient"]].parent == Some(l["MailpileEHF"])
      && s.nodes[l["ProgramMenuFolder"]].parent == Some(l["TARGETDIR"])
      && s.nodes[l["ProgramMenuDir"]].parent == Some(l["ProgramMenuFolder"])
      && s.nodes[ProductIndex].kind.Product?
  {
    var s := Initial(c, uuid4, uuids);
    assert forall i :: 0 <= i < 12 ==> s.nodes[i] == HeadNodes(c)[i];
  }

  /**
   * The Feature has exactly one child, the ComponentRef `ProgramMenuDir`, and
   * the menu component's GUID is the registry GUID of `\windows\ProgramMenuDir`,
   * the archived one when there is one.
   */
  lemma InitialMenu(c: Config, uuid4: nat -> string, uuids: map<string, string>)
    ensures var s := Initial(c, uuid4, uuids);
      && (forall i :: 0 <= i < |s.nodes| ==> (s.nodes[i].parent == Some(FeatureIndex) <==> i == 15))
      && s.nodes[15].kind == ComponentRef("ProgramMenuDir")
      && MenuPath in s.uuids
      && s.nodes[MenuComponentIndex] == Element(Some(MenuDirIndex), Component("ProgramMenuDir", s.uuids[MenuPath]))
      && (MenuPath in uuids ==> s.uuids[MenuPath] == uuids[MenuPath])
      && s.uuids.Keys == uuids.Keys + {MenuPath}
  {
    var s := Initial(c, uuid4, uuids);
    assert forall i :: 0 <= i < 12 ==> s.nodes[i] == HeadNodes(c)[i];
    assert forall i :: 12 <= i < 16 ==> s.nodes[i] == MenuNodes(GetOrCreate(uuid4, State(HeadNodes(c), map[], uuids, 0), MenuPath).1)[i - 12];
  }

  /** The environment every group is scanned in. */
  function GroupEnv(names: Naming, uuid4: nat -> string, matches: Matcher): Env {
    Env(names, uuid4, matches, SkeletonAnchors())
  }

  /** The masked paths the scan of `groups` keeps, group by group. */
  function GroupsRetained(names: Naming, uuid4: nat -> string, matches: Matcher,
                          groups: seq<(string, Group)>, fs: string -> seq<WalkEntry>): seq<string>
    decreases |groups|
  {
    if groups == [] then []
    else
      var g := groups[|groups| - 1].1;
      GroupsRetained(names, uuid4, matches, groups[..|groups| - 1], fs)
        + Retained(GroupEnv(names, uuid4, matches), SettingsOf(g), fs(g.root))
  }

  /** Every group's walk lists directories that, once masked, do not start with a separator. */
  ghost predicate RelativeGroups(groups: seq<(string, Group)>, fs: string -> seq<WalkEntry>) {
    forall i :: 0 <= i < |groups| ==> RelativeWalk(SettingsOf(groups[i].1), fs(groups[i].1.root))
  }

  /** Scanning the groups keeps every archived GUID and adds exactly the retained paths. */
  lemma {:induction false} ScanGroupsRegistry(names: Naming, uuid4: nat -> string, matches: Matcher, s: State,
                                              groups: seq<(string, Group)>, fs: string -> seq<WalkEntry>)
    ensures var r := ScanGroups(names, uuid4, matches, s, groups, fs);
      && r.uuids.Keys == s.uuids.Keys + (set q | q in GroupsRetained(names, uuid4, matches, groups, fs))
      && (forall q :: q in s.uuids ==> r.uuids[q] == s.uuids[q])
    decreases |groups|
  {
    if groups != [] {
      var init, g := groups[..|groups| - 1], groups[|groups| - 1].1;
      ScanGroupsRegistry(names, uuid4, matches, s, init, fs);
      ScanWalkRegistry(GroupEnv(names, uuid4, matches), SettingsOf(g), ScanGroups(names, uuid4, matches, s, init, fs), fs(g.root));
    }
  }

  /** Under the freshness assumption the registry stays collision-free over all groups. */
  lemma {:induction false} ScanGroupsKeepsFresh(names: Naming, uuid4: nat -> string, matches: Matcher, s: State,
                                                groups: seq<(string, Group)>, fs: string -> seq<WalkEntry>)
    requires FreshSupply(uuid4, s)
    ensures FreshSupply(uuid4, ScanGroups(names, uuid4, matches, s, groups, fs))
    decreases |groups|
  {
    if groups != [] {
      var init, g := groups[..|groups| - 1], groups[|groups| - 1].1;
      ScanGroupsKeepsFresh(names, uuid4, matches, s, init, fs);
      ScanWalkKeepsFresh(GroupEnv(names, uuid4, matches), SettingsOf(g), ScanGroups(names, uuid4, matches, s, init, fs), fs(g.root));
    }
  }

  /** Scanning groups whose walks are relative keeps the state well formed. */
  lemma {:induction false} ScanGroupsSound(names: Naming, uuid4: nat -> string, matches: Matcher, s: State,
                                           groups: seq<(string, Group)>, fs: string -> seq<WalkEntry>)
    requires WellFormed(s, SkeletonAnchors()) && RelativeGroups(groups, fs)
    ensures WellFormed(ScanGroups(names, uuid4, matches, s, groups, fs), SkeletonAnchors())
    decreases |groups|
  {
    if groups != [] {
      var init, g := groups[..|groups| - 1], groups[|groups| - 1].1;
      assert RelativeGroups(init, fs) by {
        assert forall i :: 0 <= i < |init| ==> init[i] == groups[i];
      }
      assert RelativeWalk(SettingsOf(g), fs(g.root)) by {
        assert groups[|groups| - 1].1 == g;
      }
      ScanGroupsSound(names, uuid4, matches, s, init, fs);
      ScanWalkSound(GroupEnv(names, uuid4, matches), SettingsOf(g), ScanGroups(names, uuid4, matches, s, init, fs), fs(g.root));
    }
  }

  /** The elements of tag `t` that the scan of `groups` adds, group by group, each with its own shortcut table. */
  function GroupsAdded(t: Tag, names: Naming, uuid4: nat -> string, matches: Matcher,
                       groups: seq<(string, Group)>, fs: string -> seq<WalkEntry>): nat
    decreases |groups|
  {
    if groups == [] then 0
    else
      var g := groups[|groups| - 1].1;
      GroupsAdded(t, names, uuid4, matches, groups[..|groups| - 1], fs)
        + Added(t, g.shortcuts, Retained(GroupEnv(names, uuid4, matches), SettingsOf(g), fs(g.root)))
  }

  /** Over all groups, the counts of every tag but Directory grow by what the retained files add. */
  lemma {:induction false} ScanGroupsCounts(names: Naming, uuid4: nat -> string, matches: Matcher, s: State,
                                            groups: seq<(string, Group)>, fs: string -> seq<WalkEntry>, t: Tag)
    requires t != TDirectory
    ensures Count(ScanGroups(names, uuid4, matches, s, groups, fs).nodes, t)
         == Count(s.nodes, t) + GroupsAdded(t, names, uuid4, matches, groups, fs)
    decreases |groups|
  {
    if groups != [] {
      var init, g := groups[..|groups| - 1], groups[|groups| - 1].1;
      ScanGroupsCounts(names, uuid4, matches, s, init, fs, t);
      ScanWalkCounts(GroupEnv(names, uuid4, matches), SettingsOf(g), ScanGroups(names, uuid4, matches, s, init, fs), fs(g.root), t);
    }
  }

  /** One Component, File and ComponentRef per retained file of every group. */
  lemma {:induction false} GroupsAddedRetained(t: Tag, names: Naming, uuid4: nat -> string, matches: Matcher,
                                               groups: seq<(string, Group)>, fs: string -> seq<WalkEntry>)
    requires t == TComponent || t == TFile || t == TComponentRef
    ensures GroupsAdded(t, names, uuid4, matches, groups, fs) == |GroupsRetained(names, uuid4, matches, groups, fs)|
    decreases |groups|
  {
    if groups != [] {
      GroupsAddedRetained(t, names, uuid4, matches, groups[..|groups| - 1], fs);
    }
  }

  /** Over all groups, every Directory element added comes with its own new cache key. */
  lemma {:induction false} ScanGroupsDirectories(names: Naming, uuid4: nat -> string, matches: Matcher, s: State,
                                                 groups: seq<(string, Group)>, fs: string -> seq<WalkEntry>)
    requires RelativeGroups(groups, fs)
    ensures var r := ScanGroups(names, uuid4, matches, s, groups, fs);
      Count(r.nodes, TDirectory) + |s.dirs.Keys| == Count(s.nodes, TDirectory) + |r.dirs.Keys|
    decreases |groups|
  {
    if groups != [] {
      var init, g := groups[..|groups| - 1], groups[|groups| - 1].1;
      assert RelativeGroups(init, fs) by {
        assert forall i :: 0 <= i < |init| ==> init[i] == groups[i];
      }
      assert RelativeWalk(SettingsOf(g), fs(g.root)) by {
        assert groups[|groups| - 1].1 == g;
      }
      ScanGroupsDirectories(names, uuid4, matches, s, init, fs);
      ScanWalkDirectories(GroupEnv(names, uuid4, matches), SettingsOf(g), ScanGroups(names, uuid4, matches, s, init, fs), fs(g.root));
    }
  }

  /** Over all groups, the directory cache stays closed under ancestors. */
  lemma {:induction false} ScanGroupsClosed(names: Naming, uuid4: nat -> string, matches: Matcher, s: State,
                                            groups: seq<(string, Group)>, fs: string -> seq<WalkEntry>)
    requires AncestorClosed(s.dirs) && RelativeGroups(groups, fs)
    ensures AncestorClosed(ScanGroups(names, uuid4, matches, s, groups, fs).dirs)
    decreases |groups|
  {
    if groups != [] {
      var init, g := groups[..|groups| - 1], groups[|groups| - 1].1;
      assert RelativeGroups(init, fs) by {
        assert forall i :: 0 <= i < |init| ==> init[i] == groups[i];
      }
      assert RelativeWalk(SettingsOf(g), fs(g.root)) by {
        assert groups[|groups| - 1].1 == g;
      }
      ScanGroupsClosed(names, uuid4, matches, s, init, fs);
      ScanWalkClosed(GroupEnv(names, uuid4, matches), SettingsOf(g), ScanGroups(names, uuid4, matches, s, init, fs), fs(g.root));
    }
  }

  /** The Product's elements hold one Directory (`TARGETDIR`) and nothing else that is counted. */
  lemma ProductCounts(c: Config, t: Tag)
    requires t != TOther
    ensures Count(ProductNodes(c), t) == if t == TDirectory then 1 else 0
  {
    var p := ProductNodes(c);
    assert p == p[..4] + [p[4], p[5]];
    CountConcat(p[..4], [p[4], p[5]], t);
    CountNone(p[..4], t);
  }

  /** The menu's elements hold one Component and one ComponentRef. */
  lemma MenuCounts(guid: string, t: Tag)
    requires t != TOther
    ensures Count(MenuNodes(guid), t) == if t == TComponent || t == TComponentRef then 1 else 0
  {
    var m := MenuNodes(guid);
    CountFour(m[0], m[1], m[2], m[3], t);
  }

  /** The elements before the menu hold six Directory elements and nothing else that is counted. */
  lemma HeadCounts(c: Config, t: Tag)
    requires t != TOther
    ensures Count(HeadNodes(c), t) == if t == TDirectory then 6 else 0
  {
    var root := [Element(None, Wix(WixNamespace))];
    CountConcat(root + ProductNodes(c), LogicalNodes(c), t);
    CountConcat(root, ProductNodes(c), t);
    ProductCounts(c, t);
    if t == TDirectory {
      CountAll(LogicalNodes(c), t);
    } else {
      CountNone(LogicalNodes(c), t);
    }
  }

  /**
   * The fixed part holds six Directory elements (`TARGETDIR` and the five
   * logical directories), one Component and one ComponentRef (the menu's),
   * and no File or Shortcut.
   */
  lemma InitialCounts(c: Config, uuid4: nat -> string, uuids: map<string, string>, t: Tag)
    requires t != TOther
    ensures Count(Initial(c, uuid4, uuids).nodes, t)
         == if t == TDirectory then 6 else if t == TComponent || t == TComponentRef then 1 else 0
  {
    var guid := GetOrCreate(uuid4, State(HeadNodes(c), map[], uuids, 0), MenuPath).1;
    CountConcat(HeadNodes(c), MenuNodes(guid), t);
    HeadCounts(c, t);
    MenuCounts(guid, t);
  }

  /** The whole manifest: the fixed part, then every group. */
  function Build(c: Config, sha1: Hasher, uuid4: nat -> string, matches: Matcher,
                 uuids: map<string, string>, fs: string -> seq<WalkEntry>): (r: State)
    ensures Grows(Initial(c, uuid4, uuids).nodes, r.nodes)
  {
    ScanGroups(Mangled(sha1), uuid4, matches, Initial(c, uuid4, uuids), c.groups, fs)
  }

  /**
   * The registry written back is the archived one extended: every archived
   * GUID survives unchanged, and the only new keys are the menu key and the
   * retained file paths.
   */
  lemma BuildRegistry(c: Config, sha1: Hasher, uuid4: nat -> string, matches: Matcher,
                      uuids: map<string, string>, fs: string -> seq<WalkEntry>)
    ensures var r := Build(c, sha1, uuid4, matches, uuids, fs);
      && r.uuids.Keys == uuids.Keys + {MenuPath} + (set q | q in GroupsRetained(Mangled(sha1), uuid4, matches, c.groups, fs))
      && (forall q :: q in uuids ==> r.uuids[q] == uuids[q])
  {
    InitialMenu(c, uuid4, uuids);
    ScanGroupsRegistry(Mangled(sha1), uuid4, matches, Initial(c, uuid4, uuids), c.groups, fs);
  }

  /** With relative walks the whole manifest is a well-formed tree. */
  lemma BuildSound(c: Config, sha1: Hasher, uuid4: nat -> string, matches: Matcher,
                   uuids: map<string, string>, fs: string -> seq<WalkEntry>)
    requires RelativeGroups(c.groups, fs)
    ensures WellFormed(Build(c, sha1, uuid4, matches, uuids, fs), SkeletonAnchors())
  {
    InitialWellFormed(c, uuid4, uuids);
    ScanGroupsSound(Mangled(sha1), uuid4, matches, Initial(c, uuid4, uuids), c.groups, fs);
  }

  /** The fixed part draws at most one GUID and keeps the freshness assumption. */
  lemma InitialKeepsFresh(c: Config, uuid4: nat -> string, uuids: map<string, string>)
    requires FreshSupply(uuid4, State([], map[], uuids, 0))
    ensures FreshSupply(uuid4, Initial(c, uuid4, uuids))
  {
    var s0 := State(HeadNodes(c), map[], uuids, 0);
    assert FreshSupply(uuid4, s0);
    GetOrCreateKeepsFresh(uuid4, s0, MenuPath);
  }

  /** If the archived GUIDs are distinct and the supply is fresh, the registry written back has no two paths sharing a GUID. */
  lemma BuildKeepsFresh(c: Config, sha1: Hasher, uuid4: nat -> string, matches: Matcher,
                        uuids: map<string, string>, fs: string -> seq<WalkEntry>)
    requires FreshSupply(uuid4, State([], map[], uuids, 0))
    ensures Injective(Build(c, sha1, uuid4, matches, uuids, fs).uuids)
  {
    InitialKeepsFresh(c, uuid4, uuids);
    ScanGroupsKeepsFresh(Mangled(sha1), uuid4, matches, Initial(c, uuid4, uuids), c.groups, fs);
  }

  /**
   * The finished manifest holds one Component, File and ComponentRef per
   * retained file of every group, besides the menu's Component and
   * ComponentRef, and one Shortcut per retained file listed in its group's
   * shortcut table.
   */
  lemma BuildCounts(c: Config, sha1: Hasher, uuid4: nat -> string, matches: Matcher,
                    uuids: map<string, string>, fs: string -> seq<WalkEntry>)
    ensures var r := Build(c, sha1, uuid4, matches, uuids, fs);
      var kept := |GroupsRetained(Mangled(sha1), uuid4, matches, c.groups, fs)|;
      && Count(r.nodes, TComponent) == 1 + kept
      && Count(r.nodes, TFile) == kept
      && Count(r.nodes, TComponentRef) == 1 + kept
      && Count(r.nodes, TShortcut) == GroupsAdded(TShortcut, Mangled(sha1), uuid4, matches, c.groups, fs)
  {
    InitialScanCounts(c, Mangled(sha1), uuid4, matches, uuids, fs);
  }

  /** The counts of the fixed part followed by every group, under any naming. */
  lemma InitialScanCounts(c: Config, names: Naming, uuid4: nat -> string, matches: Matcher,
                          uuids: map<string, string>, fs: string -> seq<WalkEntry>)
    ensures var r := ScanGroups(names, uuid4, matches, Initial(c, uuid4, uuids), c.groups, fs);
      var kept := |GroupsRetained(names, uuid4, matches, c.groups, fs)|;
      && Count(r.nodes, TComponent) == 1 + kept
      && Count(r.nodes, TFile) == kept
      && Count(r.nodes, TComponentRef) == 1 + kept
      && Count(r.nodes, TShortcut) == GroupsAdded(TShortcut, names, uuid4, matches, c.groups, fs)
  {
    var s := Initial(c, uuid4, uuids);
    BuildCountsOf(c, names, uuid4, matches, s, uuids, fs, TComponent);
    BuildCountsOf(c, names, uuid4, matches, s, uuids, fs, TFile);
    BuildCountsOf(c, names, uuid4, matches, s, uuids, fs, TComponentRef);
    BuildCountsOf(c, names, uuid4, matches, s, uuids, fs, TShortcut);
  }

  /** The count of one tag after the fixed part and every group: the fixed part's plus what the groups add. */
  lemma BuildCountsOf(c: Config, names: Naming, uuid4: nat -> string, matches: Matcher, s: State,
                      uuids: map<string, string>, fs: string -> seq<WalkEntry>, t: Tag)
    requires s == Initial(c, uuid4, uuids) && t != TDirectory && t != TOther
    ensures Count(ScanGroups(names, uuid4, matches, s, c.groups, fs).nodes, t)
         == (if t == TComponent || t == TComponentRef then 1 else 0)
          + (if t == TShortcut then GroupsAdded(t, names, uuid4, matches, c.groups, fs)
             else |GroupsRetained(names, uuid4, matches, c.groups, fs)|)
  {
    InitialCounts(c, uuid4, uuids, t);
    ScanGroupsCounts(names, uuid4, matches, s, c.groups, fs, t);
    if t != TShortcut {
      GroupsAddedRetained(t, names, uuid4, matches, c.groups, fs);
    }
  }

  /**
   * With relative walks, the finished manifest holds exactly one Directory
   * element per cached path besides the six fixed ones.
   */
  lemma BuildDirectories(c: Config, sha1: Hasher, uuid4: nat -> string, matches: Matcher,
                         uuids: map<string, string>, fs: string -> seq<WalkEntry>)
    requires RelativeGroups(c.groups, fs)
    ensures var r := Build(c, sha1, uuid4, matches, uuids, fs);
      Count(r.nodes, TDirectory) == 6 + |r.dirs.Keys|
  {
    InitialScanDirectories(c, Mangled(sha1), uuid4, matches, uuids, fs);
  }

  /**
   * With relative walks, the cache of the finished manifest is closed under
   * ancestors: every non-root ancestor of a cached directory is cached too.
   */
  lemma BuildClosed(c: Config, sha1: Hasher, uuid4: nat -> string, matches: Matcher,
                    uuids: map<string, string>, fs: string -> seq<WalkEntry>)
    requires RelativeGroups(c.groups, fs)
    ensures AncestorClosed(Build(c, sha1, uuid4, matches, uuids, fs).dirs)
  {
    InitialScanDirectories(c, Mangled(sha1), uuid4, matches, uuids, fs);
  }

  /** The directories of the fixed part followed by every group, under any naming. */
  lemma InitialScanDirectories(c: Config, names: Naming, uuid4: nat -> string, matches: Matcher,
                               uuids: map<string, string>, fs: string -> seq<WalkEntry>)
    requires RelativeGroups(c.groups, fs)
    ensures var r := ScanGroups(names, uuid4, matches, Initial(c, uuid4, uuids), c.groups, fs);
      Count(r.nodes, TDirectory) == 6 + |r.dirs.Keys| && AncestorClosed(r.dirs)
  {
    InitialCounts(c, uuid4, uuids, TDirectory);
    ScanGroupsFromFixed(names, uuid4, matches, Initial(c, uuid4, uuids), c.groups, fs);
  }

  /** Scanning groups from a state with six Directory elements and an empty cache. */
  lemma ScanGroupsFromFixed(names: Naming, uuid4: nat -> string, matches: Matcher, s: State,
                            groups: seq<(string, Group)>, fs: string -> seq<WalkEntry>)
    requires RelativeGroups(groups, fs) && Count(s.nodes, TDirectory) == 6 && s.dirs == map[]
    ensures var r := ScanGroups(names, uuid4, matches, s, groups, fs);
      Count(r.nodes, TDirectory) == 6 + |r.dirs.Keys| && AncestorClosed(r.dirs)
  {
    assert |s.dirs.Keys| == 0;
    ScanGroupsDirectories(names, uuid4, matches, s, groups, fs);
    ScanGroupsClosed(names, uuid4, matches, s, groups, fs);
  }

  /** Scanning the groups keeps every registry entry. */
  lemma {:induction false} ScanGroupsExtends(names: Naming, uuid4: nat -> string, matches: Matcher, s: State,
                                             groups: seq<(string, Group)>, fs: string -> seq<WalkEntry>)
    ensures Extends(s.uuids, ScanGroups(names, uuid4, matches, s, groups, fs).uuids)
    decreases |groups|
  {
    if groups != [] {
      var g := groups[|groups| - 1].1;
      var before := ScanGroups(names, uuid4, matches, s, groups[..|groups| - 1], fs);
      ScanGroupsExtends(names, uuid4, matches, s, groups[..|groups| - 1], fs);
      ScanWalkExtends(GroupEnv(names, uuid4, matches), SettingsOf(g), before, fs(g.root));
      ExtendsTrans(s.uuids, before.uuids, ScanGroups(names, uuid4, matches, s, groups, fs).uuids);
    }
  }

  /** Rescanning the groups over a registry that holds every GUID of the first scan's result builds the same and draws nothing. */
  lemma {:induction false} ScanGroupsRerun(names: Naming, uuid4: nat -> string, uuid4': nat -> string, matches: Matcher,
                                           s1: State, s2: State, u: map<string, string>, m: nat,
                                           groups: seq<(string, Group)>, fs: string -> seq<WalkEntry>)
    requires Rerun(s1, s2, u, m) && Extends(ScanGroups(names, uuid4, matches, s1, groups, fs).uuids, u)
    ensures Rerun(ScanGroups(names, uuid4, matches, s1, groups, fs), ScanGroups(names, uuid4', matches, s2, groups, fs), u, m)
    decreases |groups|
  {
    if groups != [] {
      var g := groups[|groups| - 1].1;
      var e := GroupEnv(names, uuid4, matches);
      var before := ScanGroups(names, uuid4, matches, s1, groups[..|groups| - 1], fs);
      ScanWalkExtends(e, SettingsOf(g), before, fs(g.root));
      ExtendsTrans(before.uuids, ScanWalk(e, SettingsOf(g), before, fs(g.root)).uuids, u);
      ScanGroupsRerun(names, uuid4, uuid4', matches, s1, s2, u, m, groups[..|groups| - 1], fs);
      assert e.(uuid4 := uuid4') == GroupEnv(names, uuid4', matches);
      ScanWalkRerun(e, uuid4', SettingsOf(g), before, ScanGroups(names, uuid4', matches, s2, groups[..|groups| - 1], fs),
                    u, m, fs(g.root));
    }
  }

  /** The fixed part over a registry that holds the first run's menu GUID is the same and draws nothing. */
  lemma InitialRerun(c: Config, uuid4: nat -> string, uuid4': nat -> string, uuids: map<string, string>, u: map<string, string>)
    requires Extends(Initial(c, uuid4, uuids).uuids, u)
    ensures Rerun(Initial(c, uuid4, uuids), Initial(c, uuid4', u), u, 0)
  {
    var (s, guid) := GetOrCreate(uuid4, State(HeadNodes(c), map[], uuids, 0), MenuPath);
    assert MenuPath in u && u[MenuPath] == guid;
  }

  /** The rerun property for any naming: both runs end with the same manifest and cache, and the second draws no GUID. */
  lemma InitialScanRerun(c: Config, names: Naming, uuid4: nat -> string, uuid4': nat -> string, matches: Matcher,
                         uuids: map<string, string>, u: map<string, string>, fs: string -> seq<WalkEntry>)
    requires Extends(ScanGroups(names, uuid4, matches, Initial(c, uuid4, uuids), c.groups, fs).uuids, u)
    ensures Rerun(ScanGroups(names, uuid4, matches, Initial(c, uuid4, uuids), c.groups, fs),
                  ScanGroups(names, uuid4', matches, Initial(c, uuid4', u), c.groups, fs), u, 0)
  {
    var s1 := Initial(c, uuid4, uuids);
    ScanGroupsExtends(names, uuid4, matches, s1, c.groups, fs);
    ExtendsTrans(s1.uuids, ScanGroups(names, uuid4, matches, s1, c.groups, fs).uuids, u);
    InitialRerun(c, uuid4, uuid4', uuids, u);
    ScanGroupsRerun(names, uuid4, uuid4', matches, s1, Initial(c, uuid4', u), u, 0, c.groups, fs);
  }

  /**
   * Running the builder a second time, on the registry the first run wrote
   * back and the same files, gives the same manifest and cache, and writes
   * back the same registry: every GUID is found, none is drawn.
   */
  lemma BuildRerun(c: Config, sha1: Hasher, uuid4: nat -> string, uuid4': nat -> string, matches: Matcher,
                   uuids: map<string, string>, fs: string -> seq<WalkEntry>)
    ensures var r := Build(c, sha1, uuid4, matches, uuids, fs);
      var r2 := Build(c, sha1, uuid4', matches, r.uuids, fs);
      r2.nodes == r.nodes && r2.dirs == r.dirs && r2.uuids == r.uuids && r2.minted == 0
  {
    InitialScanRerun(c, Mangled(sha1), uuid4, uuid4', matches, uuids, Build(c, sha1, uuid4, matches, uuids, fs).uuids, fs);
  }

  /** Every directory of `walk` is `root` or lies below it, as `os.walk(root)` lists them. */
  ghost predicate UnderRoot(root: string, walk: seq<WalkEntry>) {
    forall i :: 0 <= i < |walk| ==> walk[i].parent == root || exists sub :: walk[i].parent == Join(root, sub)
  }

  /** Every group root has a parent and a last segment, and its walk stays under it. */
  ghost predicate RootedGroups(groups: seq<(string, Group)>, fs: string -> seq<WalkEntry>) {
    forall i :: 0 <= i < |groups| ==>
      Sep in groups[i].1.root && Split(groups[i].1.root).1 != "" && UnderRoot(groups[i].1.root, fs(groups[i].1.root))
  }

  /**
   * A walk under a group root that has a parent masks to paths starting with
   * the root's last segment, so none starts with a separator.
   */
  lemma RootedWalkIsRelative(g: Group, walk: seq<WalkEntry>)
    requires Sep in g.root && Split(g.root).1 != "" && UnderRoot(g.root, walk)
    ensures RelativeWalk(SettingsOf(g), walk)
  {
    var name := Split(g.root).1;
    SplitShape(g.root);
    assert name[0] != Sep by { assert name[0] in name; }
    forall i | 0 <= i < |walk|
      ensures !Anchored(MaskPath(SettingsOf(g).mask, walk[i].parent))
    {
      if walk[i].parent == g.root {
        MaskedRelativeToParent(g.root, "");
      } else {
        var sub :| walk[i].parent == Join(g.root, sub);
        MaskedRelativeToParent(g.root, sub);
        assert Join(name, sub)[0] == name[0];
      }
    }
  }

  /** Groups rooted below a parent directory, each walked under its root, have relative walks. */
  lemma RootedGroupsAreRelative(groups: seq<(string, Group)>, fs: string -> seq<WalkEntry>)
    requires RootedGroups(groups, fs)
    ensures RelativeGroups(groups, fs)
  {
    forall i | 0 <= i < |groups|
      ensures RelativeWalk(SettingsOf(groups[i].1), fs(groups[i].1.root))
    {
      RootedWalkIsRelative(groups[i].1, fs(groups[i].1.root));
    }
  }
}
