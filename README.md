# MediaBrowserTree in Dafny

A model of the navigation tree that the Tempo music player exposes to car
and other media-browsing clients (`MediaBrowserTree`, a Kotlin singleton
object). The tree has two jobs:

- **The static registry.** `initialize` fills a map from id strings to nodes
  with seventeen category folders. It then wires the parent-to-child edges:
  - root → Home, Library, Other;
  - Home → five album and playlist shortcuts;
  - Library → Folders, Playlists;
  - Other → Podcasts, Radio stations.

  The three starred categories and Downloads are registered but wired under
  nobody. A guard flag makes the build happen once; the data-source handle
  is replaced on every call.
- **The dispatcher.** `getChildren(id)` answers with one of:
  - the stored child list of a container;
  - a query to the data source for one of the twelve dynamic categories;
  - a null result for Downloads;
  - for a compound id "category id + album key" under one of the three album
    categories, the tracks of that album;
  - `RESULT_ERROR_BAD_VALUE` for everything else. This includes compound ids
    under the six prefixes the source tests with empty bodies.

`getItem(id)` returns a placeholder playable track under the requested id.

The modules, in dependency order:

- `Wrappers`: `Option`.
- `MediaItems`: the media item and metadata records, and `BuildMediaItem`.
- `MediaIds`: the seventeen id constants, prefix tests and stripping, and the
  proof that no id is a prefix of another (every id is bracketed).
  `Category` enumerates the ids; `Key` and `Classify` are inverse.
- `Dispatch`: `Resolve`, the routing decision of `getChildren` as a function
  of the id, and its properties: the routing table, exact-before-prefix,
  drill-down strips the prefix, and BAD_VALUE exactly for the rest.
- `Registry`: the tree the builder must produce, as values (the item and
  child list of each category), and its shape: fixed child lists, unlinked
  nodes, three levels, and no duplicate edges.
- `BrowserTree`:
  - the node datatype and `AddChild`;
  - the builder, in the source's block order, proved to produce exactly the
    `Registry` tree;
  - the class `MediaBrowserTree`, holding the registry, the guard flag and the
    data-source handle, with `Initialize`, `GetRootItem` and `GetChildren`;
  - `GetItem`.

All source paths below are under
`app/src/tempo/java/com/cappielloantonio/tempo/service/`.

## Model

| member | source | states |
|---|---|---|
| MediaItems.BuildMediaItem | app/src/tempo/java/com/cappielloantonio/tempo/service/MediaBrowserTree.kt:69-100 | every attribute it is given is stored: id, locator, title, album, artist, genre, both flags, media type and artwork; the item is a container (not playable, browsable, no locator) exactly when called so, and a playable leaf exactly when called so |
| MediaIds.Key | app/src/tempo/java/com/cappielloantonio/tempo/service/MediaBrowserTree.kt:26-50 | the id string of each category, as declared; its properties are stated by `KeyIsDeclared`, `ClassifyKey` and `AllIdsBracketed` |
| MediaIds.AllIdsDistinct | app/src/tempo/java/com/cappielloantonio/tempo/service/MediaBrowserTree.kt:26-50 | the seventeen declared ids are pairwise different |
| MediaIds.AllIdsPartition | app/src/tempo/java/com/cappielloantonio/tempo/service/MediaBrowserTree.kt:26-50 | the declared ids are the four containers, the twelve dynamic categories and Downloads, in declaration order |
| MediaIds.AllIdsBracketed | app/src/tempo/java/com/cappielloantonio/tempo/service/MediaBrowserTree.kt:26-50 | every declared id opens with `[`, closes with `]` and has no other `]` |
| MediaIds.BracketedPrefixIsWhole | app/src/tempo/java/com/cappielloantonio/tempo/service/MediaBrowserTree.kt:26-50 | a bracketed id that begins another bracketed id is equal to it |
| MediaIds.BracketedPrefixUnique | app/src/tempo/java/com/cappielloantonio/tempo/service/MediaBrowserTree.kt:357-406 | two bracketed prefixes of the same string are equal |
| MediaIds.NoIdIsPrefixOfAnother | app/src/tempo/java/com/cappielloantonio/tempo/service/MediaBrowserTree.kt:26-50 | no declared id is a prefix of a different declared id |
| MediaIds.AtMostOneIdPrefix | app/src/tempo/java/com/cappielloantonio/tempo/service/MediaBrowserTree.kt:357-406 | a string begins with at most one declared id, so the order of the prefix tests cannot change which category matches |
| MediaIds.CompoundIsNotDeclared | app/src/tempo/java/com/cappielloantonio/tempo/service/MediaBrowserTree.kt:335-356 | a declared id followed by a non-empty key is not a declared id, so it reaches the `else` arm |
| MediaIds.StartsWith | app/src/tempo/java/com/cappielloantonio/tempo/service/MediaBrowserTree.kt:357-404 | Kotlin's `startsWith`: the string is at least as long as the prefix and its first characters are the prefix; characterised by `StartsWithIsConcat` |
| MediaIds.StartsWithIsConcat | app/src/tempo/java/com/cappielloantonio/tempo/service/MediaBrowserTree.kt:357-404 | a string begins with a prefix if and only if it is that prefix followed by some string |
| MediaIds.RemovePrefix | app/src/tempo/java/com/cappielloantonio/tempo/service/MediaBrowserTree.kt:357-363 | when the string begins with the prefix, prefix + result is the string; otherwise the string comes back unchanged |
| MediaIds.RemovePrefixOfConcat | app/src/tempo/java/com/cappielloantonio/tempo/service/MediaBrowserTree.kt:357-382 | stripping a prefix from prefix + key gives back the key |
| MediaIds.Classify | app/src/tempo/java/com/cappielloantonio/tempo/service/MediaBrowserTree.kt:335-354 | a category found for an id has that id as its key |
| MediaIds.KeyIsDeclared | app/src/tempo/java/com/cappielloantonio/tempo/service/MediaBrowserTree.kt:26-50 | every category's id is one of the declared ids |
| MediaIds.ClassifyDeclared | app/src/tempo/java/com/cappielloantonio/tempo/service/MediaBrowserTree.kt:335-356 | an id matches a `when` arm exactly when it is declared |
| MediaIds.ClassifyKey | app/src/tempo/java/com/cappielloantonio/tempo/service/MediaBrowserTree.kt:335-354 | the arm for a category's id is that category's arm, so distinct categories have distinct ids |
| Dispatch.Resolve | app/src/tempo/java/com/cappielloantonio/tempo/service/MediaBrowserTree.kt:335-410 | a stored-list answer names the requested id, and every query other than a drill-down names the requested id as parent |
| Dispatch.ExactRoute | app/src/tempo/java/com/cappielloantonio/tempo/service/MediaBrowserTree.kt:336-354 | the `when` arm of each declared id; its properties are stated by `ExactRoutes`, `ExactRouteKinds`, `ExactRouteNamesItsId`, `ContainerRoutes`, `AlbumCategoryRoutes`, `ArtistCategoryRoutes` and `CatalogueRoutes` |
| Dispatch.ExactRouteKinds | app/src/tempo/java/com/cappielloantonio/tempo/service/MediaBrowserTree.kt:336-354 | exactly the four containers read a stored list, exactly Downloads gets the null result, no arm asks for album tracks and none gives BAD_VALUE |
| Dispatch.ExactRouteNamesItsId | app/src/tempo/java/com/cappielloantonio/tempo/service/MediaBrowserTree.kt:336-352 | an arm that reads a stored list reads its own id's list; an arm that queries passes its own id as parent |
| Dispatch.ExactRoutes | app/src/tempo/java/com/cappielloantonio/tempo/service/MediaBrowserTree.kt:335-354 | a declared id is answered by its own arm, whatever prefix tests follow |
| Dispatch.StoredExactly | app/src/tempo/java/com/cappielloantonio/tempo/service/MediaBrowserTree.kt:336-339 | an id is answered from the stored lists if and only if it is one of the four containers |
| Dispatch.NullExactly | app/src/tempo/java/com/cappielloantonio/tempo/service/MediaBrowserTree.kt:354 | an id gets the null result if and only if it is the Downloads id |
| Dispatch.CategoriesAreQueried | app/src/tempo/java/com/cappielloantonio/tempo/service/MediaBrowserTree.kt:341-352 | each of the twelve dynamic categories is answered by a category query, not a drill-down |
| Dispatch.OnlyCategoriesAreQueried | app/src/tempo/java/com/cappielloantonio/tempo/service/MediaBrowserTree.kt:341-352 | a category query is issued only for one of the twelve dynamic categories |
| Dispatch.ContainerRoutes | app/src/tempo/java/com/cappielloantonio/tempo/service/MediaBrowserTree.kt:336-339 | root, Home, Library and Other each return their own stored list |
| Dispatch.AlbumCategoryRoutes | app/src/tempo/java/com/cappielloantonio/tempo/service/MediaBrowserTree.kt:341-343 | Most played, Last played and Recently added ask for one page of 100 albums sorted by "frequent", "recent" and "newest" |
| Dispatch.ArtistCategoryRoutes | app/src/tempo/java/com/cappielloantonio/tempo/service/MediaBrowserTree.kt:344-348 | Best of and Made for you ask for best-of starred artists; Starred artists asks for all starred artists |
| Dispatch.CatalogueRoutes | app/src/tempo/java/com/cappielloantonio/tempo/service/MediaBrowserTree.kt:346-352 | Starred tracks, Starred albums, Folders, Playlists, Podcasts (newest 100 episodes) and Radio stations each get their own repository query, with their id as parent |
| Dispatch.DrillDown | app/src/tempo/java/com/cappielloantonio/tempo/service/MediaBrowserTree.kt:357-382 | a wired album category id followed by a non-empty key asks for the tracks of exactly that key |
| Dispatch.ExactBeforePrefix | app/src/tempo/java/com/cappielloantonio/tempo/service/MediaBrowserTree.kt:341-382 | a wired album category id by itself gets its album query, never a drill-down |
| Dispatch.BadValueOnlyForUnknown | app/src/tempo/java/com/cappielloantonio/tempo/service/MediaBrowserTree.kt:356-408 | BAD_VALUE is given only to an undeclared id that begins with none of the three wired prefixes |
| Dispatch.UnknownIsBadValue | app/src/tempo/java/com/cappielloantonio/tempo/service/MediaBrowserTree.kt:356-408 | every undeclared id that begins with none of the three wired prefixes gets BAD_VALUE |
| Dispatch.UnwiredPrefixIsBadValue | app/src/tempo/java/com/cappielloantonio/tempo/service/MediaBrowserTree.kt:384-408 | a compound id under any of the six prefixes with empty handlers gets BAD_VALUE |
| Dispatch.QueryParent | app/src/tempo/java/com/cappielloantonio/tempo/service/MediaBrowserTree.kt:341-382 | a category query names its own id as parent; a drill-down's id is a wired prefix followed by the album key it asks for |
| Dispatch.DrillDownExactlyUnnamed | app/src/tempo/java/com/cappielloantonio/tempo/service/MediaBrowserTree.kt:335-382 | a query is a drill-down if and only if the id matches no `when` arm |
| Registry.CategoryFolder | app/src/tempo/java/com/cappielloantonio/tempo/service/MediaBrowserTree.kt:111-120 | a category node carries its id, is a container and has no album, artist or genre |
| Registry.StaticItem | app/src/tempo/java/com/cappielloantonio/tempo/service/MediaBrowserTree.kt:109-320 | the item registered for each category carries that category's id |
| Registry.ChildCategories | app/src/tempo/java/com/cappielloantonio/tempo/service/MediaBrowserTree.kt:157-324 | no wired child list contains root, a starred category or Downloads; the lists themselves (root: Home, Library, Other; Home: the five shortcuts; Library: Folders, Playlists; Other: Podcasts, Radio), in wiring order, are stated by `RootChildren`, `HomeChildren`, `LibraryChildren` and `OtherChildren` |
| Registry.ChildItems | app/src/tempo/java/com/cappielloantonio/tempo/service/MediaBrowserTree.kt:157-324 | the stored child list of a category is the items of its wired children, one per child, in wiring order |
| Registry.ItemsOfSnoc | app/src/tempo/java/com/cappielloantonio/tempo/service/MediaBrowserTree.kt:55-57 | wiring one more child appends exactly its item to the list |
| Registry.RootItems | app/src/tempo/java/com/cappielloantonio/tempo/service/MediaBrowserTree.kt:157-159 | root's stored list is Home, Library and Other appended one at a time |
| Registry.HomeItems | app/src/tempo/java/com/cappielloantonio/tempo/service/MediaBrowserTree.kt:251-255 | Home's stored list is the five shortcuts appended one at a time |
| Registry.LibraryItems | app/src/tempo/java/com/cappielloantonio/tempo/service/MediaBrowserTree.kt:284-285 | Library's stored list is Folders then Playlists |
| Registry.OtherItems | app/src/tempo/java/com/cappielloantonio/tempo/service/MediaBrowserTree.kt:322-323 | Other's stored list is Podcasts then Radio stations |
| Registry.StaticItemsAreFolders | app/src/tempo/java/com/cappielloantonio/tempo/service/MediaBrowserTree.kt:109-320 | every registered node is filed under its own id, is not playable, is browsable, and has no locator, album, artist or genre |
| Registry.ChildIdsAreKeys | app/src/tempo/java/com/cappielloantonio/tempo/service/MediaBrowserTree.kt:157-324 | read as ids, a child list spells out the ids of the wired categories, in order |
| Registry.RootChildren | app/src/tempo/java/com/cappielloantonio/tempo/service/MediaBrowserTree.kt:157-159 | root's children are exactly [HOME_ID, LIBRARY_ID, OTHER_ID] |
| Registry.HomeChildren | app/src/tempo/java/com/cappielloantonio/tempo/service/MediaBrowserTree.kt:251-258 | Home's children are exactly the five album and playlist shortcuts, without the starred ones |
| Registry.LibraryChildren | app/src/tempo/java/com/cappielloantonio/tempo/service/MediaBrowserTree.kt:284-285 | Library's children are exactly [FOLDER_ID, PLAYLIST_ID] |
| Registry.OtherChildren | app/src/tempo/java/com/cappielloantonio/tempo/service/MediaBrowserTree.kt:322-324 | Other's children are exactly [PODCAST_ID, RADIO_ID], without Downloads |
| Registry.ChildIdsNameChildren | app/src/tempo/java/com/cappielloantonio/tempo/service/MediaBrowserTree.kt:157-324 | a category's id is in a parent's child list if and only if the category is wired under that parent |
| Registry.OnlyContainersHaveChildren | app/src/tempo/java/com/cappielloantonio/tempo/service/MediaBrowserTree.kt:157-324 | a category has children if and only if it is one of the four containers |
| Registry.UnlinkedNodes | app/src/tempo/java/com/cappielloantonio/tempo/service/MediaBrowserTree.kt:256-258 | the starred categories and Downloads are in no child list |
| Registry.OnlyUnlinkedAreOrphans | app/src/tempo/java/com/cappielloantonio/tempo/service/MediaBrowserTree.kt:157-324 | every category other than root and the four unlinked ones has a parent |
| Registry.ThreeLevels | app/src/tempo/java/com/cappielloantonio/tempo/service/MediaBrowserTree.kt:157-324 | root is nobody's child, and the grandchildren of root have no children |
| Registry.NoDuplicateEdges | app/src/tempo/java/com/cappielloantonio/tempo/service/MediaBrowserTree.kt:157-324 | no child list repeats a category, and no category has two parents |
| BrowserTree.MediaItemNode.GetChildren | app/src/tempo/java/com/cappielloantonio/tempo/service/MediaBrowserTree.kt:59-65 | a node answers with an already-completed item list holding exactly its children |
| BrowserTree.AddChild | app/src/tempo/java/com/cappielloantonio/tempo/service/MediaBrowserTree.kt:55-57 | the parent's list grows by exactly the child's registered item; the parent's item, the key set and every other node are unchanged |
| BrowserTree.StaticTreeLookup | app/src/tempo/java/com/cappielloantonio/tempo/service/MediaBrowserTree.kt:109-324 | in the built registry every category holds its static item and child list |
| BrowserTree.StaticTreeNodes | app/src/tempo/java/com/cappielloantonio/tempo/service/MediaBrowserTree.kt:109-324 | in the built registry every node is a folder under its own id, with no album, artist or genre, and its children spell out the wired ids |
| BrowserTree.BuildFirstLevel | app/src/tempo/java/com/cappielloantonio/tempo/service/MediaBrowserTree.kt:109-159 | after the root and first-level blocks, root holds its final node and Home, Library and Other hold their items with no children |
| BrowserTree.RegisterHomeShortcuts | app/src/tempo/java/com/cappielloantonio/tempo/service/MediaBrowserTree.kt:163-216 | the five shortcut nodes are registered with their final items, and the four containers are untouched |
| BrowserTree.RegisterStarred | app/src/tempo/java/com/cappielloantonio/tempo/service/MediaBrowserTree.kt:218-249 | the three starred nodes are registered with their final items, and every earlier node is untouched |
| BrowserTree.WireHome | app/src/tempo/java/com/cappielloantonio/tempo/service/MediaBrowserTree.kt:251-258 | Home gets its final child list, and every node registered so far is untouched |
| BrowserTree.BuildHomeLevel | app/src/tempo/java/com/cappielloantonio/tempo/service/MediaBrowserTree.kt:161-258 | Home and its eight categories hold their final nodes; root, Library and Other are untouched |
| BrowserTree.RegisterLibraryCategories | app/src/tempo/java/com/cappielloantonio/tempo/service/MediaBrowserTree.kt:262-282 | Folders and Playlists are registered with their final items, and every earlier node is untouched |
| BrowserTree.WireLibrary | app/src/tempo/java/com/cappielloantonio/tempo/service/MediaBrowserTree.kt:284-285 | Library gets its final child list, and every node registered so far is untouched |
| BrowserTree.BuildLibraryLevel | app/src/tempo/java/com/cappielloantonio/tempo/service/MediaBrowserTree.kt:260-285 | Library, Folders and Playlists hold their final nodes, and every earlier node is untouched |
| BrowserTree.RegisterOtherCategories | app/src/tempo/java/com/cappielloantonio/tempo/service/MediaBrowserTree.kt:289-320 | Podcasts, Radio stations and Downloads are registered with their final items, and every earlier node is untouched |
| BrowserTree.WireOther | app/src/tempo/java/com/cappielloantonio/tempo/service/MediaBrowserTree.kt:322-324 | Other gets its final child list, without Downloads, and every other node is untouched |
| BrowserTree.BuildOtherLevel | app/src/tempo/java/com/cappielloantonio/tempo/service/MediaBrowserTree.kt:287-324 | Other, Podcasts, Radio stations and Downloads hold their final nodes, and every earlier node is untouched |
| BrowserTree.BuildTree | app/src/tempo/java/com/cappielloantonio/tempo/service/MediaBrowserTree.kt:109-324 | the build steps in source order leave every one of the seventeen categories with its static item and child list |
| BrowserTree.MediaBrowserTree.constructor | app/src/tempo/java/com/cappielloantonio/tempo/service/MediaBrowserTree.kt:19-23 | at start the registry is empty, the guard is down and there is no data source |
| BrowserTree.MediaBrowserTree.Initialize | app/src/tempo/java/com/cappielloantonio/tempo/service/MediaBrowserTree.kt:102-325 | the data source is replaced on every call, before the guard; the first call raises the guard and builds the tree; a later call leaves the registry as it was |
| BrowserTree.MediaBrowserTree.GetRootItem | app/src/tempo/java/com/cappielloantonio/tempo/service/MediaBrowserTree.kt:327-329 | the root item is the root folder under ROOT_ID, a non-playable browsable container |
| BrowserTree.MediaBrowserTree.BuiltChildren | app/src/tempo/java/com/cappielloantonio/tempo/service/MediaBrowserTree.kt:336-339 | once the tree is built, every category's stored child list is its static one |
| BrowserTree.MediaBrowserTree.GetChildren | app/src/tempo/java/com/cappielloantonio/tempo/service/MediaBrowserTree.kt:331-411 | the answer follows `Resolve`: a container's stored list verbatim, the data source's reply to the routed query, the null result, or BAD_VALUE; for root it lists exactly Home, Library, Other |
| BrowserTree.GetItem | app/src/tempo/java/com/cappielloantonio/tempo/service/MediaBrowserTree.kt:413-429 | the item is filed under the requested id, is a playable music leaf and streams from the locator given for that id |

## Left out

- The Android `Context` parameter of `initialize` is unused by the tree and is left out. The `LibraryParams` argument of `getChildren`, which the tree ignores, is left out too.
- The futures become their already-completed values (`ChildrenResult`), and `LibraryResult` wrappers are reduced to the payload or error they carry.
- The data-source repository is an opaque handle. Each query becomes a `Request` descriptor, answered as `DataSourceReply(handle, request)`; what the repository fetches over the network is not part of this model.
- `MusicUtil.getStreamUri(id)` is not part of this model. `GetItem` takes the locator it would return as a parameter.
- Subtitle configurations are always the empty default here and are left out of `BuildMediaItem`.
- The object is a process-wide singleton with an unsynchronised guard flag. A race between two concurrent `initialize` calls is not modelled.
- MediaItemNode: modelled as an immutable value (`item`, `children`) kept in the registry map. `AddChild` replaces the parent's entry with one whose list has grown, rather than mutating a shared node object in place. Aliasing of node objects is therefore not captured; the tree never shares a node between two keys, so nothing observable depends on it.
- The registry is keyed by `Category` rather than by the id string. `Key`/`Classify` are proved inverse (`ClassifyKey`), so the two keyings hold the same entries.
- BrowserTree.MediaBrowserTree.GetChildren and GetRootItem: the source throws (a null node, an unset `lateinit` repository) when a stored list or a query is needed before the first `initialize`. These are preconditions here, not results. The null result and BAD_VALUE do not need the tree and are modelled as available at any time.
- Integer widths do not matter here: the only numbers are the page size 100 and the handle.
- `MediaBrowserTree.kt` declares seventeen ids (lines 26–50), Downloads included; the model registers all seventeen.
