# WixConfig — a Dafny model of Mailpile's Windows installer-manifest builder

`packages/windows-redux/package.py` turns a packaging configuration into a
WiX installer manifest. The class `WixConfig` does the work:

- It builds a fixed skeleton: the Wix root, the Product with its Package, Media
  and DiskPrompt Property, and the Feature. It adds the logical directories
  `TARGETDIR` > `ProgramFilesFolder` > `MailpileEHF` > `MailpileClient` and
  `TARGETDIR` > `ProgramMenuFolder` > `ProgramMenuDir`. It adds the menu
  Component with its RegistryValue and RemoveFolder, and the Feature's
  ComponentRef to it.
- It then scans each configured group. Every file that no ignore pattern
  matches gets:
  - a Component, under the Directory element of its directory;
  - a File, inside the Component;
  - a Shortcut in the menu component, when the shortcut table has an entry
    for the file;
  - a ComponentRef, in the Feature.
- Directory elements are created lazily and cached by masked path. A masked
  path is the path with the group root's parent cut off.
- Component GUIDs come from a registry keyed by masked path. The registry
  keeps archived GUIDs and mints a fresh one only for a path it has not seen.
  This is what keeps GUIDs stable across installer versions.
- Identifiers are the context name followed by `_` and the SHA-1 of the
  masked path.

The model has eight modules:

| file | module | what it holds |
|---|---|---|
| `paths.dfy` | `Paths` | `os.path.split` and `os.path.join` on backslash paths, and `mask_path` |
| `mangle.dfy` | `Mangle` | `id_str`, `directory_id`, `component_id`, `file_id` over an abstract SHA-1 |
| `manifest.dfy` | `Manifest` | the element tree, the builder state, tag counts, well-formedness |
| `registry.dfy` | `Registry` | `uuid`, the get-or-create registry |
| `logical_tree.dfy` | `LogicalTree` | `directory` as a recursive specification, with its properties |
| `scanner.dfy` | `Scanner` | `ignore_path` and `scan_group` as folds over the walk, with counting, registry and soundness lemmas |
| `skeleton.dfy` | `Skeleton` | the fixed part of `__init__`, the scan of all groups, and the whole-manifest lemmas |
| `wix.dfy` | `Wix` | the imperative class `WixConfig` |

**Data model.**

- The XML tree is an append-only list of elements. Each element records the
  position of its parent, and the parent always comes first.
- A Python element reference, such as a value of `dirs` or `logical`,
  `self.feature` or `self.menu_component`, becomes a position in that list.
- The children of an element, in document order, are the elements that name
  it as their parent, in list order.

**Imperative part.** Each method of `Wix.WixConfig` updates fields in place.
Each is proved equal to the pure function of the same step:

- `Uuid` is proved equal to `Registry.GetOrCreate`.
- `Directory` runs the source's two loops and is proved equal to
  `LogicalTree.Resolve`. The first loop climbs to a cached ancestor, pushing
  segments on a stack. The second pops the stack, creating and caching the
  missing directories.
- `ScanGroup` runs the nested walk and file loops and is proved equal to
  `Scanner.ScanWalk`.
- The constructor is proved equal to `Skeleton.ScanGroups` applied to
  `Skeleton.Initial`.

The properties proved about those functions therefore hold for the object.

**Abstractions.**

- SHA-1 is any function returning 40 lowercase hex digits (`Mangle.Hasher`).
- `uuid.uuid4` is a supply `uuid4: nat -> string`; the state counts the values
  drawn so far in `minted`.
- `re.match` is a predicate `Matcher` on (pattern, path).
- `os.walk` is a function `fs` from a root to its list of
  `(directory, file names)` entries.
- The class takes its identifier manglers as a `Naming`. The source's naming
  is `Mangle.Mangled(sha1)`, and `Skeleton.Build` is the manifest built with
  it.

Two details of the code:

- For each file, `scan_group` appends the Shortcut (package.py:311-318)
  before the Feature's ComponentRef (package.py:320). The model keeps this
  order.
- `logical_node` looks up its parent id in `self.logical` (package.py:174),
  so the source raises `KeyError` when that id is unknown. The model's
  `Wix.WixConfig.LogicalNode` returns `false` instead and changes nothing
  (see "## Left out").

## Model

| member | source | states |
|---|---|---|
| Paths.Split | packages/windows-redux/package.py:218-224 | the head equals the path exactly when the path is the root `""` (the climb's stop test), and is strictly shorter otherwise (the climb ends) |
| Paths.SplitShape | packages/windows-redux/package.py:218-224 | the tail holds no separator; a path with a separator is head + `\` + tail; a path without one splits into `("", path)` |
| Paths.LastSepIsLast | packages/windows-redux/package.py:218 | the split position is a separator and no separator follows it |
| Paths.JoinSplit | packages/windows-redux/package.py:223-227 | joining the head and tail of a path that does not start with a separator gives the path back, so the descent rebuilds what the climb took apart |
| Paths.JoinLayout | packages/windows-redux/package.py:227 | `os.path.join` of a head and a segment: the segment ends the path, after the head and one separator, and joining onto the root `""` adds no separator |
| Paths.SplitJoin | packages/windows-redux/package.py:227 | splitting `head\tail` with a separator-free tail gives `(head, tail)` back |
| Paths.HeadNotAnchored | packages/windows-redux/package.py:223 | the head of a path not starting with a separator does not start with one either |
| Paths.MaskPath | packages/windows-redux/package.py:258-262 | the result is the suffix of the path after the mask and one separator position: its length is the path's length minus the mask's minus one, and it is empty when the path is no longer than the mask |
| Paths.MaskPathUnderMask | packages/windows-redux/package.py:258-262 | masking `mask\rest` gives `rest` |
| Paths.MaskedRelativeToParent | packages/windows-redux/package.py:278-289 | with the mask taken as the head of the root, the root masks to its last segment and `root\sub` masks to `last\sub`: a masked path is relative to the root's parent |
| Mangle.IdStr | packages/windows-redux/package.py:235-247 | the identifier is the context, `_`, and the 40-digit digest of the name; it is a legal WiX identifier (a letter or `_` first, only letters, digits, `_` and `.`, at most 72 characters) when the context is one and short enough |
| Mangle.DirectoryId | packages/windows-redux/package.py:249-250 | `Directory_` + digest of the path, legal, 50 characters |
| Mangle.ComponentId | packages/windows-redux/package.py:252-253 | `Component_` + digest of the name, legal, 50 characters |
| Mangle.FileId | packages/windows-redux/package.py:255-256 | `File_` + digest of the name, legal, 45 characters |
| Mangle.ContextsDisjoint | packages/windows-redux/package.py:235-256 | a Directory, a Component and a File identifier never coincide, whatever the names |
| Mangle.SameTokenIffSameDigest | packages/windows-redux/package.py:247 | within one context two names get the same identifier exactly when their digests are equal |
| Mangle.MangledLegal | packages/windows-redux/package.py:249-256 | the source's naming yields legal identifiers, distinct across contexts |
| Registry.GetOrCreate | packages/windows-redux/package.py:186-204 | the returned GUID is stored under the path; the keys grow by the path only; no existing entry changes; a known path changes nothing; an unknown path gets the next draw of the supply |
| Registry.GetOrCreateIdempotent | packages/windows-redux/package.py:198-199 | a second lookup of the same path returns the same GUID and changes nothing |
| Registry.GetOrCreateKeepsFresh | packages/windows-redux/package.py:200-204 | under the freshness assumption a minted GUID differs from every archived one and the registry stays collision-free |
| LogicalTree.Descend | packages/windows-redux/package.py:226-231 | one pass of the downward loop: a Directory named by the segment and identified by the mangled joined path is appended as the last child of the element reached, cached under the joined path and becomes the element reached; nothing else changes |
| LogicalTree.Resolve | packages/windows-redux/package.py:206-233 | resolving a directory never touches the registry or the supply, and keeps every existing element at its position |
| LogicalTree.MissingAncestors | packages/windows-redux/package.py:213-224 | every created path is a non-root, uncached ancestor-or-self of the requested path |
| LogicalTree.MissingChain | packages/windows-redux/package.py:213-227 | the created paths form a chain, each the head of the next and the last the requested path; the first one's head is cached or the root |
| LogicalTree.MissingGrows | packages/windows-redux/package.py:213-227 | the created paths are strictly increasing in length and no longer than the requested path, so no path is created twice |
| LogicalTree.ResolveAppends | packages/windows-redux/package.py:226-231 | exactly one element is appended per missing path and the existing elements are kept |
| LogicalTree.ResolveAppendsDirectories | packages/windows-redux/package.py:228-230 | every appended element is a Directory |
| LogicalTree.ResolveRebuilds | packages/windows-redux/package.py:226-227 | the descent rebuilds exactly the requested path |
| LogicalTree.ResolveDirs | packages/windows-redux/package.py:231 | the cache keeps its entries and gains exactly the missing paths, each mapped to its new element |
| LogicalTree.Missing | packages/windows-redux/package.py:213-224 | the segments the upward loop pushes, as full paths: none exactly when the path is cached or the root, otherwise the path itself last, and never more than the path's length |
| LogicalTree.Landing | packages/windows-redux/package.py:215-221 | the element the upward loop stops at: the cached element of the path when it is cached, and always either a cached element or the install client |
| LogicalTree.ResolveHandle | packages/windows-redux/package.py:213-233 | when nothing is missing the state is unchanged and the result is the cached element or the install client; otherwise it is the last created element |
| LogicalTree.ResolveNewNodes | packages/windows-redux/package.py:226-231 | each created Directory sits below the previous one (the first below the landing element), is named by its segment and identified by the mangled path |
| LogicalTree.LandingSound | packages/windows-redux/package.py:215-220 | the climb stops at an existing Directory element |
| LogicalTree.ResolveSound | packages/windows-redux/package.py:206-233 | resolving keeps the tree, the cache (sound and injective) and the anchors well formed and returns a Directory element |
| LogicalTree.ResolveCachesPath | packages/windows-redux/package.py:231-233 | afterwards the path is cached as the returned element |
| LogicalTree.ResolveIdempotent | packages/windows-redux/package.py:214-216 | resolving the same path again changes nothing and returns the same element, so no duplicate directories appear |
| LogicalTree.ResolveCachesAncestors | packages/windows-redux/package.py:226-231 | a cache closed under ancestors stays closed and then holds every ancestor of the path |
| LogicalTree.Replay | packages/windows-redux/package.py:226-231 | the downward loop over the pushed segments appends one element per segment, keeps every existing element and cache key, and leaves the registry and supply alone |
| LogicalTree.ResolveIgnoresRegistry | packages/windows-redux/package.py:206-233 | `directory` reads only the element list and the cache: with any other registry and supply count it builds the same elements and cache and returns the same element |
| LogicalTree.ReplayClimb | packages/windows-redux/package.py:218-224 | one step of the upward loop: resolving a path is resolving its head and then descending by its tail |
| LogicalTree.ReplayDescend | packages/windows-redux/package.py:226-231 | one step of the downward loop pops the last pushed segment |
| LogicalTree.ResolveCountsKeys | packages/windows-redux/package.py:231 | the cache gains exactly as many keys as paths are created |
| LogicalTree.ResolveCountsDirectories | packages/windows-redux/package.py:228-230 | the number of Directory elements grows by the number of created paths |
| LogicalTree.ResolveKeepsOtherCounts | packages/windows-redux/package.py:226-231 | no other kind of element is added |
| Scanner.FilePath | packages/windows-redux/package.py:288-289 | the masked path of a file below the mask is its masked directory, one separator and the file name |
| Scanner.ShortcutTarget | packages/windows-redux/package.py:314 | the Shortcut's `[#id]` target holds the File identifier, which can be read back from it |
| Scanner.IgnorePath | packages/windows-redux/package.py:280-284 | a path is ignored exactly when some pattern of the list matches it |
| Scanner.FileRecords | packages/windows-redux/package.py:300-320 | a file's records are a Component, a File, a Shortcut exactly when the masked path has a shortcut entry, and a ComponentRef last |
| Scanner.AddFile | packages/windows-redux/package.py:300-320 | appending a file's records only extends the element list; the cache, the registry and the supply are unchanged |
| Scanner.ScanFile | packages/windows-redux/package.py:287-320 | an ignored file leaves the whole state unchanged; any file only appends elements and never returns GUIDs to the supply |
| Scanner.ScanFiles | packages/windows-redux/package.py:287-320 | the inner loop over a directory's files never alters an element already in the manifest |
| Scanner.ScanWalk | packages/windows-redux/package.py:286-320 | the outer loop over the walk never alters an element already in the manifest |
| Scanner.ScanFilesSnoc | packages/windows-redux/package.py:287 | one more file of the inner loop is one more `ScanFile` step |
| Scanner.ScanWalkSnoc | packages/windows-redux/package.py:286 | one more directory of the outer loop is one more inner loop |
| Scanner.AddFileElements | packages/windows-redux/package.py:300-320 | a retained file appends, in order, the Component under its directory with its GUID, the File under the Component with the file name and local path, the Shortcut under the menu component targeting `[#file id]` with the table's attributes when the path has an entry, and the ComponentRef in the Feature |
| Scanner.ScanFileElements | packages/windows-redux/package.py:298-320 | for a retained file the Component sits under the resolved Directory of the masked parent and carries the registry GUID of the masked path |
| Scanner.FileRecordsCount | packages/windows-redux/package.py:300-320 | a file's records are one Component, one File and one ComponentRef, plus one Shortcut exactly when its path has an entry |
| Scanner.AddFileCounts | packages/windows-redux/package.py:300-320 | appending a file's records changes the tag counts by exactly that much |
| Scanner.ScanFileCounts | packages/windows-redux/package.py:291-320 | a retained file adds one Component, File and ComponentRef and a Shortcut when listed; an ignored one adds nothing |
| Scanner.ScanFileDirectories | packages/windows-redux/package.py:298 | Directory elements grow exactly as the cache grows |
| Scanner.ScanFileRegistry | packages/windows-redux/package.py:291-302 | the registry keeps every entry and gains the masked path exactly when the file is retained |
| Scanner.ScanFileKeepsFresh | packages/windows-redux/package.py:302 | the freshness assumption persists |
| Scanner.FileRecordsParents | packages/windows-redux/package.py:300-320 | each record's parent precedes it |
| Scanner.AddFileSound | packages/windows-redux/package.py:300-320 | appending the records keeps the state well formed |
| Scanner.ScanFileSound | packages/windows-redux/package.py:287-320 | scanning a file keeps the state well formed |
| Scanner.ScanFilesCounts | packages/windows-redux/package.py:287-320 | over a directory's files, Components, Files and ComponentRefs grow by the number of retained files and Shortcuts by the number of those listed |
| Scanner.ScanWalkCounts | packages/windows-redux/package.py:286-320 | the same over the whole walk of a group |
| Scanner.ScanFilesDirectories | packages/windows-redux/package.py:287-298 | Directory elements grow exactly as the cache grows, over a directory's files |
| Scanner.ScanWalkDirectories | packages/windows-redux/package.py:286-298 | the same over the whole walk |
| Scanner.ScanFilesRegistry | packages/windows-redux/package.py:287-302 | the registry keeps every entry and gains exactly the retained masked paths of the directory |
| Scanner.ScanWalkRegistry | packages/windows-redux/package.py:286-302 | the same over the whole walk |
| Scanner.ScanFilesKeepsFresh | packages/windows-redux/package.py:287-302 | the freshness assumption persists over a directory's files |
| Scanner.ScanWalkKeepsFresh | packages/windows-redux/package.py:286-302 | the same over the whole walk |
| Scanner.ScanFilesSound | packages/windows-redux/package.py:287-320 | a directory's files keep the state well formed |
| Scanner.ScanWalkSound | packages/windows-redux/package.py:286-320 | a whole group keeps the state well formed |
| Scanner.ScanFileClosed | packages/windows-redux/package.py:298 | a file keeps the cache closed under ancestors, and a retained file leaves its masked directory and all that directory's non-root ancestors cached |
| Scanner.ScanFilesClosed | packages/windows-redux/package.py:287-298 | a directory's files keep the cache closed under ancestors |
| Scanner.ScanWalkClosed | packages/windows-redux/package.py:286-298 | a whole group keeps the cache closed under ancestors |
| Scanner.ScanFileExtends | packages/windows-redux/package.py:198-204 | scanning a file never drops or changes a registry entry |
| Scanner.ScanFilesExtends | packages/windows-redux/package.py:287-302 | nor does a directory's inner loop |
| Scanner.ScanWalkExtends | packages/windows-redux/package.py:286-302 | nor does a whole group |
| Scanner.ScanFileRerun | packages/windows-redux/package.py:287-320 | rescanning a file, in a state with the same elements and cache and a registry that already holds every GUID the first scan ended with, finds its GUID, appends the same elements whatever the supply, and leaves the registry and supply count alone |
| Scanner.ScanFilesRerun | packages/windows-redux/package.py:287-320 | the same for the files of one directory |
| Scanner.ScanWalkRerun | packages/windows-redux/package.py:286-320 | the same for a whole group |
| Skeleton.SettingsOf | packages/windows-redux/package.py:278 | a group is scanned with its own ignore list and shortcut table, and with the mask taken as the head of its root, so that the root masks to its last segment |
| Skeleton.Initial | packages/windows-redux/package.py:81-165 | the fixed part is the Wix root, the Product's elements and the logical directories, followed by the four menu elements, with no directory cached |
| Skeleton.ScanGroups | packages/windows-redux/package.py:167-168 | scanning the groups in order never alters an element already in the manifest |
| Skeleton.Build | packages/windows-redux/package.py:70-168 | the scans keep the fixed part at the front of the finished manifest, unchanged |
| Skeleton.ProductLayout | packages/windows-redux/package.py:84-122 | the Product's elements each have a parent created before them, with `TARGETDIR` at `TargetDirIndex` and the `Complete` Feature at `FeatureIndex` |
| Skeleton.LogicalLayout | packages/windows-redux/package.py:125-145 | the logical directories are Directory elements with parents created before them, `MailpileClient` and `ProgramMenuDir` at their indices |
| Skeleton.MenuLayout | packages/windows-redux/package.py:147-165 | the menu Component carries the GUID looked up for it, its children come after it, and the Feature's ComponentRef names it |
| Skeleton.InitialWellFormed | packages/windows-redux/package.py:81-165 | the fixed part is a well-formed tree of 16 elements with an empty directory cache, the install client, Feature and menu component as anchors, and at most one GUID drawn |
| Skeleton.InitialLogicalChain | packages/windows-redux/package.py:115-145 | each logical id names a Directory with that id, chained `TARGETDIR` (under the Product) > `ProgramFilesFolder` > `MailpileEHF` > `MailpileClient` and `TARGETDIR` > `ProgramMenuFolder` > `ProgramMenuDir` |
| Skeleton.InitialMenu | packages/windows-redux/package.py:147-165 | the Feature's only child is the ComponentRef `ProgramMenuDir`; the menu component sits under `ProgramMenuDir` with the registry GUID of `\windows\ProgramMenuDir`, the archived one when there is one; that key is the only one added |
| Skeleton.InitialKeepsFresh | packages/windows-redux/package.py:147-150 | the fixed part keeps the freshness assumption |
| Skeleton.ScanGroupsRegistry | packages/windows-redux/package.py:167-168 | scanning the groups keeps every GUID and adds exactly the retained paths of all groups |
| Skeleton.ScanGroupsKeepsFresh | packages/windows-redux/package.py:167-168 | the freshness assumption persists over all groups |
| Skeleton.ScanGroupsSound | packages/windows-redux/package.py:167-168 | all groups together keep the state well formed |
| Skeleton.ScanGroupsCounts | packages/windows-redux/package.py:167-168 | over all groups, the count of every tag but Directory grows by what each group's retained files add under that group's shortcut table |
| Skeleton.GroupsAddedRetained | packages/windows-redux/package.py:299-320 | over all groups, one Component, File and ComponentRef is added per retained file |
| Skeleton.ScanGroupsDirectories | packages/windows-redux/package.py:167-168 | over all groups, Directory elements grow exactly as the cache grows |
| Skeleton.ScanGroupsClosed | packages/windows-redux/package.py:167-168 | over all groups, a cache closed under ancestors stays closed |
| Skeleton.ProductCounts | packages/windows-redux/package.py:84-122 | the Product's elements hold one Directory, `TARGETDIR`, and no Component, File, Shortcut or ComponentRef |
| Skeleton.HeadCounts | packages/windows-redux/package.py:81-145 | the elements before the menu hold six Directory elements and no Component, File, Shortcut or ComponentRef |
| Skeleton.MenuCounts | packages/windows-redux/package.py:147-165 | the menu's elements hold one Component and one ComponentRef, and no Directory, File or Shortcut |
| Skeleton.InitialCounts | packages/windows-redux/package.py:81-165 | the fixed part holds six Directory elements, one Component, one ComponentRef, and no File or Shortcut |
| Skeleton.BuildCountsOf | packages/windows-redux/package.py:70-168 | after the fixed part and every group, the count of one tag is the fixed part's plus the groups' additions |
| Skeleton.InitialScanCounts | packages/windows-redux/package.py:70-168 | after the fixed part and every group, under any naming: Components and ComponentRefs number one more than the retained files, Files as many as the retained files, and Shortcuts as many as the retained files listed in their group's table |
| Skeleton.BuildCounts | packages/windows-redux/package.py:70-168 | the same for the finished manifest |
| Skeleton.ScanGroupsFromFixed | packages/windows-redux/package.py:167-168 | from a state with six Directory elements and an empty cache, the groups leave one Directory element per cached path besides the six, and a cache closed under ancestors |
| Skeleton.InitialScanDirectories | packages/windows-redux/package.py:70-168 | the same after the fixed part and every group, under any naming |
| Skeleton.BuildDirectories | packages/windows-redux/package.py:70-168 | the finished manifest holds exactly one Directory element per cached path besides the six fixed ones |
| Skeleton.BuildClosed | packages/windows-redux/package.py:206-233 | in the finished manifest every non-root ancestor of a cached directory is cached too, as `directory` promises for every path it resolves |
| Skeleton.ScanGroupsExtends | packages/windows-redux/package.py:167-168 | scanning the groups never drops or changes a registry entry |
| Skeleton.ScanGroupsRerun | packages/windows-redux/package.py:167-168 | rescanning the groups over a registry holding every GUID of the first scan's result builds the same elements and cache and draws no GUID |
| Skeleton.InitialRerun | packages/windows-redux/package.py:81-165 | the fixed part over a registry holding the first run's menu GUID is the same and draws no GUID |
| Skeleton.InitialScanRerun | packages/windows-redux/package.py:70-168 | the rerun property for any naming |
| Skeleton.BuildRerun | packages/windows-redux/package.py:70-168 | running the builder again on the registry the first run wrote back, over the same files, gives the same manifest and cache, writes back the same registry, and draws no GUID, whatever the supply |
| Skeleton.RootedWalkIsRelative | packages/windows-redux/package.py:278-289 | a walk that stays under a group root with a parent directory masks to paths that do not start with a separator |
| Skeleton.RootedGroupsAreRelative | packages/windows-redux/package.py:167-168 | groups rooted below a parent, each walked under its root, meet `Skeleton.RelativeGroups`, the condition of `BuildSound`, `BuildDirectories` and `BuildClosed` |
| Skeleton.BuildRegistry | packages/windows-redux/package.py:70-168 | the registry of the finished manifest keeps every archived GUID unchanged, and its only new keys are the menu key and the retained file paths |
| Skeleton.BuildSound | packages/windows-redux/package.py:70-168 | the finished manifest is a well-formed tree with a sound, injective directory cache |
| Skeleton.BuildKeepsFresh | packages/windows-redux/package.py:70-168 | if the archived GUIDs are distinct and the supply draws fresh values, no two paths of the finished registry share a GUID |
| Wix.IsIgnored | packages/windows-redux/package.py:280-284 | the loop returns true exactly when some pattern matches, and agrees with `Scanner.IgnorePath` |
| Wix.WixConfig.AppendElement | packages/windows-redux/package.py:52-55 | one element appended under the parent; its position is returned |
| Wix.WixConfig.LogicalNode | packages/windows-redux/package.py:170-176 | with a known parent, a Directory with the given id and name is appended under the parent's element and recorded under its id; with an unknown parent nothing changes |
| Wix.WixConfig.LogicalRoot | packages/windows-redux/package.py:178-184 | a Directory appended under the Product and recorded under its id |
| Wix.WixConfig.Uuid | packages/windows-redux/package.py:186-204 | the new registry, supply position and the result are those of `Registry.GetOrCreate` |
| Wix.WixConfig.Directory | packages/windows-redux/package.py:206-233 | the two loops leave exactly the state and return exactly the element of `LogicalTree.Resolve` |
| Wix.WixConfig.CreateDirectories | packages/windows-redux/package.py:226-231 | the downward loop creates and caches the popped segments as the replayed descent does |
| Wix.WixConfig.ProcessFile | packages/windows-redux/package.py:287-320 | the body of the inner loop makes the change `Scanner.ScanFile` describes |
| Wix.WixConfig.AddRecords | packages/windows-redux/package.py:300-320 | appends exactly the file's records |
| Wix.WixConfig.ScanDirectory | packages/windows-redux/package.py:287-320 | the inner loop makes the change `Scanner.ScanFiles` describes |
| Wix.WixConfig.ScanGroup | packages/windows-redux/package.py:264-320 | the nested loops make the change `Scanner.ScanWalk` describes, with the mask taken as the head of the root |
| Wix.WixConfig.AddProduct | packages/windows-redux/package.py:84-122 | the Product, Package, Media, Property, `TARGETDIR` and Feature in that order, with the configured attributes |
| Wix.WixConfig.AddLogical | packages/windows-redux/package.py:124-145 | the five logical directories, in order, and the full logical table |
| Wix.WixConfig.AddInstallDirs | packages/windows-redux/package.py:126-136 | `ProgramFilesFolder` > `MailpileEHF` > `MailpileClient` |
| Wix.WixConfig.AddMenuDirs | packages/windows-redux/package.py:140-145 | `ProgramMenuFolder` > `ProgramMenuDir`, the first without a display name |
| Wix.WixConfig.AddMenu | packages/windows-redux/package.py:147-165 | the menu component with its registry GUID, RegistryValue, RemoveFolder and the Feature's ComponentRef, giving `Skeleton.Initial` |
| Wix.WixConfig.ScanGroups | packages/windows-redux/package.py:167-168 | the group loop makes the change `Skeleton.ScanGroups` describes |
| Wix.WixConfig.constructor | packages/windows-redux/package.py:70-168 | the object holds the manifest of `Skeleton.Initial` followed by every group's scan, with the logical table, Product, Feature and menu component at their fixed positions |

## Left out

- `save` (lines 323-332) is left out: writing the registry as JSON and the XML as pretty-printed text is output only. XML serialisation, `xml_attrs` and `consume` are modelled as typed element kinds carrying their attributes.
- Loading the registry from a JSON file (lines 77-79) is left out. The model is given the registry as a map.
- The registry is shared with the caller when it is passed as a dictionary (line 76); the model keeps it as a value, so that aliasing is not captured.
- Logging is left out. So is the `__main__` configuration and call (lines 335-394).
- SHA-1 is abstract: only the shape of its digest is modelled, not the hash itself.
- `uuid.uuid4` is a supply of strings. Its freshness is an assumption (`Registry.FreshSupply`), which the source also relies on without checking.
- `re.match` is an abstract predicate. Regular-expression semantics, including anchoring at the start of the path, are not modelled.
- `os.walk` is an abstract list of (directory, file names) entries. Its subdirectory list and traversal order are inputs, not modelled.
- The iteration order of `config['groups']` is given as a sequence.
- Paths are split at the last backslash, with `""` as the root. Drive letters, forward slashes and repeated or trailing separators (the rest of `ntpath` behaviour) are not modelled.
- The drive-root quirk is therefore not modelled. For a group rooted directly under a drive root, such as `c:\Python27`, `ntpath.split` keeps the separator in the head and gives the mask `c:\`. `mask_path` (package.py:262) then cuts one character more than the mask, so the files are keyed `ython27\...`. The model's split gives the mask `c:`, and the keys `Python27\...`.
- An empty mask (a group root without any separator) makes `mask_path` drop the first character of the path. `Paths.MaskPath` keeps this, as written; `Paths.MaskedRelativeToParent` only speaks of roots that contain a separator.
- A shortcut table entry that itself contains a `Target` key makes the source raise `TypeError` (duplicate keyword). The model keeps the table's attributes beside the target.
- Missing configuration keys (`KeyError` on `config[...]`) cannot occur, because the configuration is a typed record. A group's `ignore` and `shortcuts` default to empty in the source; in the model they are always given.
- The group's key and `uuid` are passed to `scan_group` and not used there, as in the source.
- Wix.WixConfig.Directory: requires `MailpileClient` to be a logical id. The source would raise `KeyError` on reaching the root without it, which cannot happen once `__init__` has built the skeleton.
- Wix.WixConfig.LogicalNode: an unknown parent id raises `KeyError` in the source, which would end construction. The model returns `false` and changes nothing; `__init__` never takes that path.
- Wix.WixConfig.constructor: is stated for any `Naming`. With the source's `Mangle.Mangled(sha1)` its result is `Skeleton.Build`.
- On paths that start with a separator, the model's join does not give back what its split took apart. A walk that stays under a group root with a parent masks to paths that start with the root's last segment, so none starts with a separator (`Skeleton.RootedWalkIsRelative`, lifted to all groups by `Skeleton.RootedGroupsAreRelative`). The lemmas below are therefore stated only for paths that do not start with a separator.
- LogicalTree.MissingAncestors: requires the path not to start with a separator.
- LogicalTree.ResolveRebuilds: requires the path not to start with a separator.
- LogicalTree.ResolveDirs: requires the path not to start with a separator.
- LogicalTree.ResolveNewNodes: requires the path not to start with a separator.
- LogicalTree.ResolveSound: requires the path not to start with a separator.
- LogicalTree.ResolveCachesPath: requires the path not to start with a separator.
- LogicalTree.ResolveIdempotent: requires the path not to start with a separator.
- LogicalTree.ResolveCachesAncestors: requires the path not to start with a separator, and a cache already closed under ancestors. The builder's cache starts empty and stays closed: see `Scanner.ScanFileClosed` up to `Skeleton.BuildClosed`.
- LogicalTree.ResolveCountsKeys: requires the path not to start with a separator.
- Scanner.ScanFileDirectories: requires the masked directory not to start with a separator.
- Scanner.ScanFileSound: requires the masked directory not to start with a separator.
- Scanner.ScanFilesDirectories: requires the masked directory not to start with a separator.
- Scanner.ScanFilesSound: requires the masked directory not to start with a separator.
- Scanner.ScanWalkDirectories: requires every masked directory of the walk not to start with a separator (`Scanner.RelativeWalk`).
- Scanner.ScanWalkSound: requires every masked directory of the walk not to start with a separator (`Scanner.RelativeWalk`).
- Skeleton.ScanGroupsSound: requires the same of every group's walk (`Skeleton.RelativeGroups`).
- Skeleton.BuildSound: requires the same of every group's walk (`Skeleton.RelativeGroups`).
- Scanner.ScanFileClosed: requires the masked directory not to start with a separator.
- Scanner.ScanFilesClosed: requires the masked directory not to start with a separator.
- Scanner.ScanWalkClosed: requires `Scanner.RelativeWalk`.
- Skeleton.ScanGroupsDirectories: requires `Skeleton.RelativeGroups`.
- Skeleton.ScanGroupsClosed: requires `Skeleton.RelativeGroups`.
- Skeleton.ScanGroupsFromFixed: requires `Skeleton.RelativeGroups`.
- Skeleton.InitialScanDirectories: requires `Skeleton.RelativeGroups`.
- Skeleton.BuildDirectories: requires `Skeleton.RelativeGroups`.
- Skeleton.BuildClosed: requires `Skeleton.RelativeGroups`.
- Skeleton.BuildKeepsFresh: assumes the archived GUIDs are distinct and the supply is fresh; the source guarantees neither.
