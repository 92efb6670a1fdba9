/**
 * The static category tree as a value: the item stored for each category
 * and the children wired under each container, in wiring order. The
 * builder in BrowserTree is proved to produce exactly this; the lemmas
 * here state its shape.
 */
module Registry {

  import opened Wrappers
  import opened MediaItems
  import opened MediaIds

  /** A category node: browsable, not playable, with no album, artist, genre, locator or artwork. */
  function CategoryFolder(title: string, id: string, mediaType: MediaType): (item: MediaItem)
    ensures item.mediaId == id && IsContainer(item)
    ensures item.metadata.albumTitle == None && item.metadata.artist == None && item.metadata.genre == None
  {
    BuildMediaItem(title, id, false, true, mediaType)
  }

  /** The item stored for `c` once the tree is built, with the title and folder type the builder gives it. */
  function StaticItem(c: Category): (item: MediaItem)
    ensures item.mediaId == Key(c)
  {
    match c
    case Root => CategoryFolder("Root Folder", ROOT_ID, FolderMixed)
    case Home => CategoryFolder("Home", HOME_ID, FolderMixed)
    case Library => CategoryFolder("Library", LIBRARY_ID, FolderMixed)
    case Other => CategoryFolder("Other", OTHER_ID, FolderMixed)
    case MostPlayed => CategoryFolder("Most played", MOST_PLAYED_ID, FolderAlbums)
    case LastPlayed => CategoryFolder("Last played", LAST_PLAYED_ID, FolderAlbums)
    case RecentlyAdded => CategoryFolder("Recently added", RECENTLY_ADDED_ID, FolderAlbums)
    case BestOf => CategoryFolder("Best of", BEST_OF_ID, FolderPlaylists)
    case MadeForYou => CategoryFolder("Made for you", MADE_FOR_YOU_ID, FolderPlaylists)
    case StarredTracks => CategoryFolder("Starred tracks", STARRED_TRACKS_ID, FolderMixed)
    case StarredAlbums => CategoryFolder("Starred albums", STARRED_ALBUMS_ID, FolderAlbums)
    case StarredArtists => CategoryFolder("Starred artists", STARRED_ARTISTS_ID, FolderArtists)
    case Folders => CategoryFolder("Folders", FOLDER_ID, FolderMixed)
    case Playlists => CategoryFolder("Playlists", PLAYLIST_ID, FolderPlaylists)
    case Podcasts => CategoryFolder("Podcasts", PODCAST_ID, FolderPodcasts)
    case Radio => CategoryFolder("Radio stations", RADIO_ID, FolderRadioStations)
    case Downloads => CategoryFolder("Downloads", DOWNLOAD_ID, FolderRadioStations)
  }

  /**
   * The categories wired under `c`, in wiring order. The starred categories
   * and Downloads are registered but wired under nobody.
   */
  function ChildCategories(c: Category): (cs: seq<Category>)
    ensures Root !in cs
    ensures forall x :: x in cs ==> !Unlinked(x)
  {
    match c
    case Root => [Home, Library, Other]
    case Home => [MostPlayed, LastPlayed, RecentlyAdded, BestOf, MadeForYou]
    case Library => [Folders, Playlists]
    case Other => [Podcasts, Radio]
    case _ => []
  }

  /** The static items of `cs`, in order. */
  function ItemsOf(cs: seq<Category>): (items: seq<MediaItem>)
    ensures |items| == |cs|
    ensures forall i :: 0 <= i < |cs| ==> items[i] == StaticItem(cs[i])
  {
    seq(|cs|, i requires 0 <= i < |cs| => StaticItem(cs[i]))
  }

  /** The child list stored for `c` once the tree is built: the items of its wired children, in order. */
  function ChildItems(c: Category): (items: seq<MediaItem>)
    ensures |items| == |ChildCategories(c)|
    ensures forall i :: 0 <= i < |items| ==> items[i] == StaticItem(ChildCategories(c)[i])
  {
    ItemsOf(ChildCategories(c))
  }

  /** Listing one more category appends its item. */
  lemma ItemsOfSnoc(cs: seq<Category>, c: Category)
    ensures ItemsOf(cs + [c]) == ItemsOf(cs) + [StaticItem(c)]
  {
    var longer := ItemsOf(cs + [c]);
    var appended := ItemsOf(cs) + [StaticItem(c)];
    forall i | 0 <= i < |longer|
      ensures longer[i] == appended[i]
    {
      assert (cs + [c])[i] == if i < |cs| then cs[i] else c;
    }
  }

  /**
   * The stored child list of each container is what appending the items of
   * its wired children one at a time, in wiring order, to an empty list gives.
   */
  lemma RootItems()
    ensures ChildItems(Root) == [] + [StaticItem(Home)] + [StaticItem(Library)] + [StaticItem(Other)]
  {
    ItemsOfSnoc([], Home);
    ItemsOfSnoc([Home], Library);
    ItemsOfSnoc([Home, Library], Other);
  }

  lemma HomeItems()
    ensures ChildItems(Home) ==
      [] + [StaticItem(MostPlayed)] + [StaticItem(LastPlayed)] + [StaticItem(RecentlyAdded)] + [StaticItem(BestOf)] + [StaticItem(MadeForYou)]
  {
    ItemsOfSnoc([], MostPlayed);
    ItemsOfSnoc([MostPlayed], LastPlayed);
    ItemsOfSnoc([MostPlayed, LastPlayed], RecentlyAdded);
    ItemsOfSnoc([MostPlayed, LastPlayed, RecentlyAdded], BestOf);
    ItemsOfSnoc([MostPlayed, LastPlayed, RecentlyAdded, BestOf], MadeForYou);
  }

  lemma LibraryItems()
    ensures ChildItems(Library) == [] + [StaticItem(Folders)] + [StaticItem(Playlists)]
  {
    ItemsOfSnoc([], Folders);
    ItemsOfSnoc([Folders], Playlists);
  }

  lemma OtherItems()
    ensures ChildItems(Other) == [] + [StaticItem(Podcasts)] + [StaticItem(Radio)]
  {
    ItemsOfSnoc([], Podcasts);
    ItemsOfSnoc([Podcasts], Radio);
  }

  /** The child ids wired under `c`, in order. */
  function ChildIds(c: Category): seq<string> {
    IdsOf(ChildItems(c))
  }

  /**
   * Every stored node is a category folder filed under its own id: not
   * playable, browsable, with no locator, album, artist or genre.
   */
  lemma StaticItemsAreFolders(c: Category)
    ensures StaticItem(c).mediaId == Key(c)
    ensures IsContainer(StaticItem(c))
    ensures StaticItem(c).metadata.albumTitle == None
    ensures StaticItem(c).metadata.artist == None
    ensures StaticItem(c).metadata.genre == None
  {
  }

  /** The child list of `c`, read as ids, spells out the ids of its wired categories. */
  lemma ChildIdsAreKeys(c: Category)
    ensures |ChildIds(c)| == |ChildCategories(c)|
    ensures forall i :: 0 <= i < |ChildIds(c)| ==> ChildIds(c)[i] == Key(ChildCategories(c)[i])
  {
  }

  /** Root lists Home, Library and Other, in that order. */
  lemma RootChildren()
    ensures ChildIds(Root) == [HOME_ID, LIBRARY_ID, OTHER_ID]
  {
    ChildIdsAreKeys(Root);
  }

  /** Home lists the five album and playlist categories; the starred ones are left out. */
  lemma HomeChildren()
    ensures ChildIds(Home) == [MOST_PLAYED_ID, LAST_PLAYED_ID, RECENTLY_ADDED_ID, BEST_OF_ID, MADE_FOR_YOU_ID]
  {
    ChildIdsAreKeys(Home);
  }

  /** Library lists Folders and Playlists. */
  lemma LibraryChildren()
    ensures ChildIds(Library) == [FOLDER_ID, PLAYLIST_ID]
  {
    ChildIdsAreKeys(Library);
  }

  /** Other lists Podcasts and Radio stations; Downloads is left out. */
  lemma OtherChildren()
    ensures ChildIds(Other) == [PODCAST_ID, RADIO_ID]
  {
    ChildIdsAreKeys(Other);
  }

  /** The id of `c` is in the child list of `parent` exactly when `c` is wired under `parent`. */
  lemma ChildIdsNameChildren(parent: Category, c: Category)
    ensures Key(c) in ChildIds(parent) <==> c in ChildCategories(parent)
  {
    var cs := ChildCategories(parent);
    ChildIdsAreKeys(parent);
    if Key(c) in ChildIds(parent) {
      var i :| 0 <= i < |ChildIds(parent)| && ChildIds(parent)[i] == Key(c);
      ClassifyKey(cs[i]);
      ClassifyKey(c);
    }
    if c in cs {
      var i :| 0 <= i < |cs| && cs[i] == c;
      assert ChildIds(parent)[i] == Key(c);
    }
  }

  /** Only the four containers have children. */
  lemma OnlyContainersHaveChildren(c: Category)
    ensures ChildCategories(c) != [] <==> Key(c) in ContainerIds
  {
  }

  /** The categories the builder registers but wires under nobody. */
  predicate Unlinked(c: Category) {
    c == StarredTracks || c == StarredAlbums || c == StarredArtists || c == Downloads
  }

  /** The three starred categories and Downloads are nobody's child. */
  lemma UnlinkedNodes(parent: Category, c: Category)
    requires Unlinked(c)
    ensures c !in ChildCategories(parent)
    ensures Key(c) !in ChildIds(parent)
  {
    ChildIdsNameChildren(parent, c);
  }

  /** Every other category except root is somebody's child. */
  lemma OnlyUnlinkedAreOrphans(c: Category)
    requires c != Root && !Unlinked(c)
    ensures exists p :: c in ChildCategories(p)
  {
    var p := match c
      case Home | Library | Other => Root
      case MostPlayed | LastPlayed | RecentlyAdded | BestOf | MadeForYou => Home
      case Folders | Playlists => Library
      case _ => Other;
    assert c in ChildCategories(p);
  }

  /**
   * The tree is three levels deep: root is nobody's child, and the children
   * of root's children have no children of their own.
   */
  lemma ThreeLevels(parent: Category)
    ensures Root !in ChildCategories(parent)
    ensures forall c, g :: c in ChildCategories(Root) && g in ChildCategories(c) ==> ChildCategories(g) == []
  {
  }

  /** No child list repeats an edge, and every category has at most one parent. */
  lemma NoDuplicateEdges(parent: Category, other: Category)
    ensures forall i, j :: 0 <= i < j < |ChildCategories(parent)| ==> ChildCategories(parent)[i] != ChildCategories(parent)[j]
    ensures parent != other ==> forall c :: c in ChildCategories(parent) ==> c !in ChildCategories(other)
  {
  }
}
