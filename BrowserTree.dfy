/**
 * The navigation-tree object: the registry of category nodes, the builder
 * that fills it and wires the parent-to-child edges, and the operations the
 * browsing client calls (root item, children, item).
 */
module BrowserTree {

  import opened Wrappers
  import opened MediaItems
  import opened MediaIds
  import opened Dispatch
  import opened Registry

  /** The handle of the data source the tree delegates dynamic queries to. */
  datatype Repository = Repository(handle: nat)

  /**
   * What `getChildren` returns, with the future taken as its value: a list
   * of items, the reply the data source gives to a query, a result holding
   * null, or the BAD_VALUE error.
   */
  datatype ChildrenResult =
    | ItemList(items: seq<MediaItem>)
    | DataSourceReply(repository: Repository, request: Request)
    | NullResult
    | BadValueError

  /** A registry entry: its item and the child list appended to while the tree is built. */
  datatype MediaItemNode = MediaItemNode(item: MediaItem, children: seq<MediaItem>)
  {
    /** The stored children as an already-completed item-list result. */
    function GetChildren(): (r: ChildrenResult)
      ensures r.ItemList? && r.items == children
    {
      ItemList(children)
    }
  }

  /**
   * `treeNodes[parentId]!!.addChild(childId)`: appends the item registered
   * for `child` to the child list of the node registered for `parent`. Both
   * must be registered; the source asserts the parent non-null and looks
   * the child up the same way.
   */
  function AddChild(nodes: map<Category, MediaItemNode>, parent: Category, child: Category): (r: map<Category, MediaItemNode>)
    requires parent in nodes && child in nodes
    ensures r.Keys == nodes.Keys
    ensures r[parent].item == nodes[parent].item
    ensures r[parent].children == nodes[parent].children + [nodes[child].item]
    ensures forall c :: c in nodes && c != parent ==> r[c] == nodes[c]
  {
    nodes[parent := nodes[parent].(children := nodes[parent].children + [nodes[child].item])]
  }

  /** `nodes` holds, for `c`, the static item of `c` and its static child list. */
  predicate HoldsNode(nodes: map<Category, MediaItemNode>, c: Category) {
    c in nodes && nodes[c] == MediaItemNode(StaticItem(c), ChildItems(c))
  }

  /** `nodes` is the built tree: every category registered, with its static item and child list. */
  predicate IsStaticTree(nodes: map<Category, MediaItemNode>) {
    && HoldsNode(nodes, Root)
    && HoldsNode(nodes, Home) && HoldsNode(nodes, Library) && HoldsNode(nodes, Other)
    && HoldsNode(nodes, MostPlayed) && HoldsNode(nodes, LastPlayed) && HoldsNode(nodes, RecentlyAdded)
    && HoldsNode(nodes, BestOf) && HoldsNode(nodes, MadeForYou)
    && HoldsNode(nodes, StarredTracks) && HoldsNode(nodes, StarredAlbums) && HoldsNode(nodes, StarredArtists)
    && HoldsNode(nodes, Folders) && HoldsNode(nodes, Playlists)
    && HoldsNode(nodes, Podcasts) && HoldsNode(nodes, Radio) && HoldsNode(nodes, Downloads)
  }

  /** In the built tree every category's node is its static one. */
  lemma StaticTreeLookup(nodes: map<Category, MediaItemNode>, c: Category)
    requires IsStaticTree(nodes)
    ensures HoldsNode(nodes, c)
  {
  }

  /**
   * Every node of the built tree is a category folder (not playable,
   * browsable, no locator, album, artist or genre) whose item carries the
   * id of its category, and its child list spells out the ids of the
   * categories wired under it.
   */
  lemma StaticTreeNodes(nodes: map<Category, MediaItemNode>, c: Category)
    requires IsStaticTree(nodes)
    ensures c in nodes
    ensures nodes[c].item.mediaId == Key(c)
    ensures IsContainer(nodes[c].item)
    ensures nodes[c].item.metadata.albumTitle == None
    ensures nodes[c].item.metadata.artist == None
    ensures nodes[c].item.metadata.genre == None
    ensures IdsOf(nodes[c].children) == ChildIds(c)
  {
    StaticTreeLookup(nodes, c);
    StaticItemsAreFolders(c);
  }

  /** The node registered for `c` is the one `before` registers for it. */
  predicate Kept(before: map<Category, MediaItemNode>, after: map<Category, MediaItemNode>, c: Category) {
    c in before && c in after && after[c] == before[c]
  }

  /** `nodes` holds, for `c`, the static item of `c` with no children yet. */
  predicate HoldsBareNode(nodes: map<Category, MediaItemNode>, c: Category) {
    c in nodes && nodes[c] == MediaItemNode(StaticItem(c), [])
  }

  /**
   * The "Root level" and "First level" steps of the builder: registers root
   * and the three first-level containers and wires them under root.
   */
  method BuildFirstLevel(nodes: map<Category, MediaItemNode>) returns (r: map<Category, MediaItemNode>)
    ensures HoldsNode(r, Root)
    ensures HoldsBareNode(r, Home) && HoldsBareNode(r, Library) && HoldsBareNode(r, Other)
  {
    r := nodes;
    r := r[Root := MediaItemNode(BuildMediaItem("Root Folder", ROOT_ID, false, true, FolderMixed), [])];

    r := r[Home := MediaItemNode(BuildMediaItem("Home", HOME_ID, false, true, FolderMixed), [])];
    r := r[Library := MediaItemNode(BuildMediaItem("Library", LIBRARY_ID, false, true, FolderMixed), [])];
    r := r[Other := MediaItemNode(BuildMediaItem("Other", OTHER_ID, false, true, FolderMixed), [])];

    r := AddChild(r, Root, Home);
    r := AddChild(r, Root, Library);
    r := AddChild(r, Root, Other);
    RootItems();
  }

  /** The first five registrations of the "Second level HOME_ID" block: the Home categories wired under Home. */
  method RegisterHomeShortcuts(nodes: map<Category, MediaItemNode>) returns (r: map<Category, MediaItemNode>)
    requires Root in nodes && Home in nodes && Library in nodes && Other in nodes
    ensures HoldsNode(r, MostPlayed) && HoldsNode(r, LastPlayed) && HoldsNode(r, RecentlyAdded) && HoldsNode(r, BestOf)
    ensures HoldsNode(r, MadeForYou)
    ensures Kept(nodes, r, Root) && Kept(nodes, r, Home) && Kept(nodes, r, Library) && Kept(nodes, r, Other)
  {
    r := nodes;
    r := r[MostPlayed := MediaItemNode(BuildMediaItem("Most played", MOST_PLAYED_ID, false, true, FolderAlbums), [])];
    r := r[LastPlayed := MediaItemNode(BuildMediaItem("Last played", LAST_PLAYED_ID, false, true, FolderAlbums), [])];
    r := r[RecentlyAdded := MediaItemNode(BuildMediaItem("Recently added", RECENTLY_ADDED_ID, false, true, FolderAlbums), [])];
    r := r[BestOf := MediaItemNode(BuildMediaItem("Best of", BEST_OF_ID, false, true, FolderPlaylists), [])];
    r := r[MadeForYou := MediaItemNode(BuildMediaItem("Made for you", MADE_FOR_YOU_ID, false, true, FolderPlaylists), [])];
  }

  /** The last three registrations of the "Second level HOME_ID" block: the starred categories, wired under nobody. */
  method RegisterStarred(nodes: map<Category, MediaItemNode>) returns (r: map<Category, MediaItemNode>)
    requires Root in nodes && Home in nodes && Library in nodes && Other in nodes && MostPlayed in nodes && LastPlayed in nodes
    requires RecentlyAdded in nodes && BestOf in nodes && MadeForYou in nodes
    ensures HoldsNode(r, StarredTracks) && HoldsNode(r, StarredAlbums) && HoldsNode(r, StarredArtists)
    ensures Kept(nodes, r, Root) && Kept(nodes, r, Home) && Kept(nodes, r, Library) && Kept(nodes, r, Other)
    ensures Kept(nodes, r, MostPlayed) && Kept(nodes, r, LastPlayed) && Kept(nodes, r, RecentlyAdded) && Kept(nodes, r, BestOf)
    ensures Kept(nodes, r, MadeForYou)
  {
    r := nodes;
    r := r[StarredTracks := MediaItemNode(BuildMediaItem("Starred tracks", STARRED_TRACKS_ID, false, true, FolderMixed), [])];
    r := r[StarredAlbums := MediaItemNode(BuildMediaItem("Starred albums", STARRED_ALBUMS_ID, false, true, FolderAlbums), [])];
    r := r[StarredArtists := MediaItemNode(BuildMediaItem("Starred artists", STARRED_ARTISTS_ID, false, true, FolderArtists), [])];
  }

  /** The wiring of the "Second level HOME_ID" block: the first five Home categories under Home. */
  method WireHome(nodes: map<Category, MediaItemNode>) returns (r: map<Category, MediaItemNode>)
    requires HoldsBareNode(nodes, Home)
    requires HoldsNode(nodes, MostPlayed) && HoldsNode(nodes, LastPlayed) && HoldsNode(nodes, RecentlyAdded) && HoldsNode(nodes, BestOf)
    requires HoldsNode(nodes, MadeForYou)
    requires Root in nodes && Library in nodes && Other in nodes && StarredTracks in nodes && StarredAlbums in nodes && StarredArtists in nodes
    ensures HoldsNode(r, Home)
    ensures Kept(nodes, r, Root) && Kept(nodes, r, Library) && Kept(nodes, r, Other) && Kept(nodes, r, MostPlayed)
    ensures Kept(nodes, r, LastPlayed) && Kept(nodes, r, RecentlyAdded) && Kept(nodes, r, BestOf) && Kept(nodes, r, MadeForYou)
    ensures Kept(nodes, r, StarredTracks) && Kept(nodes, r, StarredAlbums) && Kept(nodes, r, StarredArtists)
  {
    r := nodes;
    r := AddChild(r, Home, MostPlayed);
    r := AddChild(r, Home, LastPlayed);
    r := AddChild(r, Home, RecentlyAdded);
    r := AddChild(r, Home, BestOf);
    r := AddChild(r, Home, MadeForYou);
    HomeItems();
  }

  /**
   * The "Second level HOME_ID" steps: registers the eight Home categories
   * and wires the first five under Home; the three starred ones stay
   * unwired.
   */
  method BuildHomeLevel(nodes: map<Category, MediaItemNode>) returns (r: map<Category, MediaItemNode>)
    requires HoldsBareNode(nodes, Home)
    requires Root in nodes && Library in nodes && Other in nodes
    ensures HoldsNode(r, Home) && HoldsNode(r, MostPlayed) && HoldsNode(r, LastPlayed) && HoldsNode(r, RecentlyAdded)
    ensures HoldsNode(r, BestOf) && HoldsNode(r, MadeForYou) && HoldsNode(r, StarredTracks) && HoldsNode(r, StarredAlbums)
    ensures HoldsNode(r, StarredArtists)
    ensures Kept(nodes, r, Root) && Kept(nodes, r, Library) && Kept(nodes, r, Other)
  {
    var shortcuts := RegisterHomeShortcuts(nodes);
    var registered := RegisterStarred(shortcuts);
    r := WireHome(registered);
  }

  /** The registrations of the "Second level LIBRARY_ID" block: Folders and Playlists. */
  method RegisterLibraryCategories(nodes: map<Category, MediaItemNode>) returns (r: map<Category, MediaItemNode>)
    requires Root in nodes && Home in nodes && MostPlayed in nodes && LastPlayed in nodes && RecentlyAdded in nodes && BestOf in nodes
    requires MadeForYou in nodes && StarredTracks in nodes && StarredAlbums in nodes && StarredArtists in nodes && Other in nodes && Library in nodes
    ensures HoldsNode(r, Folders) && HoldsNode(r, Playlists)
    ensures Kept(nodes, r, Root) && Kept(nodes, r, Home) && Kept(nodes, r, MostPlayed) && Kept(nodes, r, LastPlayed)
    ensures Kept(nodes, r, RecentlyAdded) && Kept(nodes, r, BestOf) && Kept(nodes, r, MadeForYou) && Kept(nodes, r, StarredTracks)
    ensures Kept(nodes, r, StarredAlbums) && Kept(nodes, r, StarredArtists) && Kept(nodes, r, Other) && Kept(nodes, r, Library)
  {
    r := nodes;
    r := r[Folders := MediaItemNode(BuildMediaItem("Folders", FOLDER_ID, false, true, FolderMixed), [])];
    r := r[Playlists := MediaItemNode(BuildMediaItem("Playlists", PLAYLIST_ID, false, true, FolderPlaylists), [])];
  }

  /** The wiring of the "Second level LIBRARY_ID" block: Folders and Playlists under Library. */
  method WireLibrary(nodes: map<Category, MediaItemNode>) returns (r: map<Category, MediaItemNode>)
    requires HoldsBareNode(nodes, Library) && HoldsNode(nodes, Folders) && HoldsNode(nodes, Playlists)
    requires Root in nodes && Home in nodes && MostPlayed in nodes && LastPlayed in nodes && RecentlyAdded in nodes && BestOf in nodes
    requires MadeForYou in nodes && StarredTracks in nodes && StarredAlbums in nodes && StarredArtists in nodes && Other in nodes
    ensures HoldsNode(r, Library)
    ensures Kept(nodes, r, Root) && Kept(nodes, r, Home) && Kept(nodes, r, MostPlayed) && Kept(nodes, r, LastPlayed)
    ensures Kept(nodes, r, RecentlyAdded) && Kept(nodes, r, BestOf) && Kept(nodes, r, MadeForYou) && Kept(nodes, r, StarredTracks)
    ensures Kept(nodes, r, StarredAlbums) && Kept(nodes, r, StarredArtists) && Kept(nodes, r, Other) && Kept(nodes, r, Folders)
    ensures Kept(nodes, r, Playlists)
  {
    r := nodes;
    r := AddChild(r, Library, Folders);
    r := AddChild(r, Library, Playlists);
    LibraryItems();
  }

  /** The "Second level LIBRARY_ID" steps: registers Folders and Playlists and wires both under Library. */
  method BuildLibraryLevel(nodes: map<Category, MediaItemNode>) returns (r: map<Category, MediaItemNode>)
    requires HoldsBareNode(nodes, Library)
    requires Root in nodes && Home in nodes && MostPlayed in nodes && LastPlayed in nodes && RecentlyAdded in nodes && BestOf in nodes
    requires MadeForYou in nodes && StarredTracks in nodes && StarredAlbums in nodes && StarredArtists in nodes && Other in nodes
    ensures HoldsNode(r, Library) && HoldsNode(r, Folders) && HoldsNode(r, Playlists)
    ensures Kept(nodes, r, Root) && Kept(nodes, r, Home) && Kept(nodes, r, MostPlayed) && Kept(nodes, r, LastPlayed)
    ensures Kept(nodes, r, RecentlyAdded) && Kept(nodes, r, BestOf) && Kept(nodes, r, MadeForYou) && Kept(nodes, r, StarredTracks)
    ensures Kept(nodes, r, StarredAlbums) && Kept(nodes, r, StarredArtists) && Kept(nodes, r, Other)
  {
    var registered := RegisterLibraryCategories(nodes);
    r := WireLibrary(registered);
  }

  /** The registrations of the "Second level OTHER_ID" block: Podcasts, Radio stations and Downloads. */
  method RegisterOtherCategories(nodes: map<Category, MediaItemNode>) returns (r: map<Category, MediaItemNode>)
    requires Root in nodes && Home in nodes && MostPlayed in nodes && LastPlayed in nodes && RecentlyAdded in nodes && BestOf in nodes
    requires MadeForYou in nodes && StarredTracks in nodes && StarredAlbums in nodes && StarredArtists in nodes && Library in nodes && Folders in nodes
    requires Playlists in nodes && Other in nodes
    ensures HoldsNode(r, Podcasts) && HoldsNode(r, Radio) && HoldsNode(r, Downloads)
    ensures Kept(nodes, r, Root) && Kept(nodes, r, Home) && Kept(nodes, r, MostPlayed) && Kept(nodes, r, LastPlayed)
    ensures Kept(nodes, r, RecentlyAdded) && Kept(nodes, r, BestOf) && Kept(nodes, r, MadeForYou) && Kept(nodes, r, StarredTracks)
    ensures Kept(nodes, r, StarredAlbums) && Kept(nodes, r, StarredArtists) && Kept(nodes, r, Library) && Kept(nodes, r, Folders)
    ensures Kept(nodes, r, Playlists) && Kept(nodes, r, Other)
  {
    r := nodes;
    r := r[Podcasts := MediaItemNode(BuildMediaItem("Podcasts", PODCAST_ID, false, true, FolderPodcasts), [])];
    r := r[Radio := MediaItemNode(BuildMediaItem("Radio stations", RADIO_ID, false, true, FolderRadioStations), [])];
    r := r[Downloads := MediaItemNode(BuildMediaItem("Downloads", DOWNLOAD_ID, false, true, FolderRadioStations), [])];
  }

  /** The wiring of the "Second level OTHER_ID" block: Podcasts and Radio stations under Other; Downloads is left out. */
  method WireOther(nodes: map<Category, MediaItemNode>) returns (r: map<Category, MediaItemNode>)
    requires HoldsBareNode(nodes, Other) && HoldsNode(nodes, Podcasts) && HoldsNode(nodes, Radio)
    requires Root in nodes && Home in nodes && MostPlayed in nodes && LastPlayed in nodes && RecentlyAdded in nodes && BestOf in nodes
    requires MadeForYou in nodes && StarredTracks in nodes && StarredAlbums in nodes && StarredArtists in nodes && Library in nodes && Folders in nodes
    requires Playlists in nodes && Downloads in nodes
    ensures HoldsNode(r, Other)
    ensures Kept(nodes, r, Root) && Kept(nodes, r, Home) && Kept(nodes, r, MostPlayed) && Kept(nodes, r, LastPlayed)
    ensures Kept(nodes, r, RecentlyAdded) && Kept(nodes, r, BestOf) && Kept(nodes, r, MadeForYou) && Kept(nodes, r, StarredTracks)
    ensures Kept(nodes, r, StarredAlbums) && Kept(nodes, r, StarredArtists) && Kept(nodes, r, Library) && Kept(nodes, r, Folders)
    ensures Kept(nodes, r, Playlists) && Kept(nodes, r, Podcasts) && Kept(nodes, r, Radio) && Kept(nodes, r, Downloads)
  {
    r := nodes;
    r := AddChild(r, Other, Podcasts);
    r := AddChild(r, Other, Radio);
    OtherItems();
  }

  /**
   * The "Second level OTHER_ID" steps: registers Podcasts, Radio stations
   * and Downloads and wires the first two under Other; Downloads stays
   * unwired.
   */
  method BuildOtherLevel(nodes: map<Category, MediaItemNode>) returns (r: map<Category, MediaItemNode>)
    requires HoldsBareNode(nodes, Other)
    requires Root in nodes && Home in nodes && MostPlayed in nodes && LastPlayed in nodes && RecentlyAdded in nodes && BestOf in nodes
    requires MadeForYou in nodes && StarredTracks in nodes && StarredAlbums in nodes && StarredArtists in nodes && Library in nodes && Folders in nodes
    requires Playlists in nodes
    ensures HoldsNode(r, Other) && HoldsNode(r, Podcasts) && HoldsNode(r, Radio) && HoldsNode(r, Downloads)
    ensures Kept(nodes, r, Root) && Kept(nodes, r, Home) && Kept(nodes, r, MostPlayed) && Kept(nodes, r, LastPlayed)
    ensures Kept(nodes, r, RecentlyAdded) && Kept(nodes, r, BestOf) && Kept(nodes, r, MadeForYou) && Kept(nodes, r, StarredTracks)
    ensures Kept(nodes, r, StarredAlbums) && Kept(nodes, r, StarredArtists) && Kept(nodes, r, Library) && Kept(nodes, r, Folders)
    ensures Kept(nodes, r, Playlists)
  {
    var registered := RegisterOtherCategories(nodes);
    r := WireOther(registered);
  }

  /** The builder's four blocks in source order, applied to the registry, leave the built tree. */
  method BuildTree(nodes: map<Category, MediaItemNode>) returns (r: map<Category, MediaItemNode>)
    ensures IsStaticTree(r)
  {
    var n1 := BuildFirstLevel(nodes);
    var n2 := BuildHomeLevel(n1);
    var n3 := BuildLibraryLevel(n2);
    r := BuildOtherLevel(n3);
  }

  /**
   * The tree object. Before the first `Initialize`, the registry is empty,
   * the guard flag is down and there is no data source; from then on the
   * flag is up and the registry holds the built tree. The registry is keyed
   * by the category an id names (`Key` and `Classify` are inverse).
   */
  class MediaBrowserTree {
    var automotiveRepository: Option<Repository>
    var treeNodes: map<Category, MediaItemNode>
    var isInitialized: bool

    /** Either nothing has happened yet, or the tree has been built once. */
    ghost predicate Valid()
      reads this
    {
      if isInitialized then Built()
      else treeNodes == map[] && automotiveRepository == None
    }

    /** The data source is set and the registry holds the built tree. */
    ghost predicate Built()
      reads this
    {
      automotiveRepository.Some? && IsStaticTree(treeNodes)
    }

    /** The process-start state: empty registry, guard down, no data source. */
    constructor ()
      ensures Valid()
      ensures treeNodes == map[] && automotiveRepository == None && !isInitialized
    {
      automotiveRepository := None;
      treeNodes := map[];
      isInitialized := false;
    }

    /**
     * Records `repository` (on every call), then, on the first call only,
     * raises the guard, registers the seventeen category nodes and wires
     * their edges. The three starred categories and Downloads are registered
     * but wired under nobody. A later call changes nothing but the data
     * source.
     */
    method Initialize(repository: Repository)
      requires Valid()
      modifies this
      ensures Valid() && isInitialized && Built()
      ensures automotiveRepository == Some(repository)
      ensures old(isInitialized) ==> treeNodes == old(treeNodes)
    {
      automotiveRepository := Some(repository);

      if isInitialized {
        return;
      }

      isInitialized := true;
      treeNodes := BuildTree(treeNodes);
    }

    /** The root node's item; before the first `Initialize` there is no root node and the source fails. */
    method GetRootItem() returns (item: MediaItem)
      requires Valid() && isInitialized
      ensures item == StaticItem(Root)
      ensures item.mediaId == ROOT_ID && IsContainer(item)
    {
      StaticTreeLookup(treeNodes, Root);
      item := treeNodes[Root].item;
    }

    /** Once built, every category's stored child list is its static one. */
    lemma BuiltChildren(c: Category)
      requires Built()
      ensures c in treeNodes && treeNodes[c].children == ChildItems(c)
    {
      StaticTreeLookup(treeNodes, c);
    }

    /**
     * The children of `id`, as Resolve routes it: a container's stored list
     * verbatim, the data source's reply to the routed query, a null result,
     * or BAD_VALUE. Nothing changes. Reading a stored list or querying the
     * data source before the first `Initialize` fails in the source (a null
     * node, an unset data source), so those routes need the tree built; the
     * null result and BAD_VALUE are given at any time.
     */
    method GetChildren(id: string) returns (r: ChildrenResult)
      requires Valid()
      requires Resolve(id).Stored? || Resolve(id).Query? ==> isInitialized
      ensures Resolve(id).Stored? ==> Classify(id).Some? && r == ItemList(ChildItems(Classify(id).value))
      ensures Resolve(id).Query? ==> r == DataSourceReply(automotiveRepository.value, Resolve(id).request)
      ensures Resolve(id).NullValue? ==> r == NullResult
      ensures Resolve(id).BadValue? ==> r == BadValueError
      ensures id == ROOT_ID ==> r.ItemList? && IdsOf(r.items) == [HOME_ID, LIBRARY_ID, OTHER_ID]
    {
      var route := Resolve(id);
      if route.Stored? {
        var c := Classify(id).value;
        BuiltChildren(c);
        r := treeNodes[c].GetChildren();
        if c == Root {
          RootChildren();
        }
      } else if route.Query? {
        r := DataSourceReply(automotiveRepository.value, route.request);
      } else if route.NullValue? {
        r := NullResult;
      } else {
        r := BadValueError;
      }
    }
  }

  /**
   * The item for `id`: fixed placeholder metadata of a playable music track
   * under the requested id, streamed from `streamUri` (the locator the
   * streaming helper gives for `id`). It consults nothing else and always
   * succeeds.
   */
  function GetItem(id: string, streamUri: string): (item: MediaItem)
    ensures item.mediaId == id
    ensures IsPlayableLeaf(item) && item.uri == Some(streamUri)
    ensures item.metadata.mediaType == Music
  {
    var metadata := MediaMetadata("Titolo", Some("Titolo album"), Some("Artista"), None, false, true, None, Music);
    MediaItem(id, metadata, Some(streamUri))
  }
}
