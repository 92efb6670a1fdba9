/**
 * The child-resolution dispatcher: which answer `getChildren` gives for an
 * id. The decision depends on the id alone; the stored child lists and the
 * data-source handle it is carried out with are the tree's (see
 * BrowserTree.MediaBrowserTree.GetChildren).
 */
module Dispatch {

  import opened Wrappers
  import opened MediaIds

  /** The data-source queries the dispatcher issues, as uninterpreted descriptors. */
  datatype Request =
    | GetAlbums(parentId: string, mode: string, limit: int)
    | GetStarredArtists(parentId: string, bestOf: bool)
    | GetStarredSongs(parentId: string)
    | GetStarredAlbums(parentId: string)
    | GetMusicFolders(parentId: string)
    | GetPlaylists(parentId: string)
    | GetNewestPodcastEpisodes(parentId: string, limit: int)
    | GetInternetRadioStations(parentId: string)
    | GetAlbumTracks(albumId: string)

  /** The four kinds of answer: a stored list, a query, a null value, an error. */
  datatype Route =
    | Stored(nodeId: string)   // the children stored under nodeId, already completed
    | Query(request: Request)  // whatever the data source returns for request
    | NullValue                // an already-completed result holding null
    | BadValue                 // an already-completed RESULT_ERROR_BAD_VALUE result

  /** Page size of the album and podcast queries. */
  const PageSize: int := 100

  /**
   * The dispatch of `getChildren`: the exact ids in the order of the `when`
   * arms, then the three wired drill-down prefixes in their order. The six
   * tests for the unwired prefixes have empty bodies in the source and so
   * fall through to the error like any other id.
   */
  function Resolve(id: string): (r: Route)
    ensures r.Stored? ==> r.nodeId == id
    ensures r.Query? && !r.request.GetAlbumTracks? ==> r.request.parentId == id
  {
    match Classify(id)
    case Some(c) => ExactRoute(c)
    case None =>
      if StartsWith(id, MOST_PLAYED_ID) then Query(GetAlbumTracks(RemovePrefix(id, MOST_PLAYED_ID)))
      else if StartsWith(id, LAST_PLAYED_ID) then Query(GetAlbumTracks(RemovePrefix(id, LAST_PLAYED_ID)))
      else if StartsWith(id, RECENTLY_ADDED_ID) then Query(GetAlbumTracks(RemovePrefix(id, RECENTLY_ADDED_ID)))
      else BadValue
  }

  /** The arm of the `when` for each declared id; each query names that id as its parent. */
  function ExactRoute(c: Category): Route {
    match c
    case Root => Stored(ROOT_ID)
    case Home => Stored(HOME_ID)
    case Library => Stored(LIBRARY_ID)
    case Other => Stored(OTHER_ID)
    case MostPlayed => Query(GetAlbums(MOST_PLAYED_ID, "frequent", PageSize))
    case LastPlayed => Query(GetAlbums(LAST_PLAYED_ID, "recent", PageSize))
    case RecentlyAdded => Query(GetAlbums(RECENTLY_ADDED_ID, "newest", PageSize))
    case BestOf => Query(GetStarredArtists(BEST_OF_ID, true))
    case MadeForYou => Query(GetStarredArtists(MADE_FOR_YOU_ID, true))
    case StarredTracks => Query(GetStarredSongs(STARRED_TRACKS_ID))
    case StarredAlbums => Query(GetStarredAlbums(STARRED_ALBUMS_ID))
    case StarredArtists => Query(GetStarredArtists(STARRED_ARTISTS_ID, false))
    case Folders => Query(GetMusicFolders(FOLDER_ID))
    case Playlists => Query(GetPlaylists(PLAYLIST_ID))
    case Podcasts => Query(GetNewestPodcastEpisodes(PODCAST_ID, PageSize))
    case Radio => Query(GetInternetRadioStations(RADIO_ID))
    case Downloads => NullValue
  }

  /** The four container arms read stored lists, the Downloads arm gives null, and every other arm queries. */
  lemma ExactRouteKinds(c: Category)
    ensures ExactRoute(c).Stored? <==> c == Root || c == Home || c == Library || c == Other
    ensures ExactRoute(c).NullValue? <==> c == Downloads
    ensures ExactRoute(c).Query? ==> !ExactRoute(c).request.GetAlbumTracks?
    ensures !ExactRoute(c).BadValue?
  {
  }

  /** An arm that reads a stored list reads the list of its own id; an arm that queries names its own id as parent. */
  lemma ExactRouteNamesItsId(c: Category)
    ensures ExactRoute(c).Stored? ==> ExactRoute(c).nodeId == Key(c)
    ensures ExactRoute(c).Query? ==> ExactRoute(c).request.parentId == Key(c)
  {
  }

  /** An exact id is answered by its own arm of the `when`, whatever prefix tests follow. */
  lemma ExactRoutes(c: Category)
    ensures Resolve(Key(c)) == ExactRoute(c)
  {
    ClassifyKey(c);
  }

  /** The four containers, and only they, are answered from the stored lists. */
  lemma StoredExactly(id: string)
    ensures Resolve(id).Stored? <==> id in ContainerIds
  {
  }

  /** Downloads, and only Downloads, gives a null value. */
  lemma NullExactly(id: string)
    ensures Resolve(id).NullValue? <==> id == DOWNLOAD_ID
  {
  }

  /** The twelve dynamic categories are answered by a category query. */
  lemma CategoriesAreQueried(c: Category)
    requires Key(c) in CategoryIds
    ensures Resolve(Key(c)).Query? && !Resolve(Key(c)).request.GetAlbumTracks?
  {
    ExactRoutes(c);
    AllIdsDistinct();
  }

  /** A category query (not a drill-down) is issued only for the twelve dynamic categories. */
  lemma OnlyCategoriesAreQueried(id: string)
    requires Resolve(id).Query? && !Resolve(id).request.GetAlbumTracks?
    ensures id in CategoryIds
  {
    ClassifyKey(Classify(id).value);
  }

  /** The four containers are answered from the stored lists. */
  lemma ContainerRoutes()
    ensures Resolve(ROOT_ID) == Stored(ROOT_ID)
    ensures Resolve(HOME_ID) == Stored(HOME_ID)
    ensures Resolve(LIBRARY_ID) == Stored(LIBRARY_ID)
    ensures Resolve(OTHER_ID) == Stored(OTHER_ID)
  {
    ExactRoutes(Root);
    ExactRoutes(Home);
    ExactRoutes(Library);
    ExactRoutes(Other);
  }

  /** The three album categories ask for one page of 100 albums, each in its own sort mode. */
  lemma AlbumCategoryRoutes(c: Category)
    requires c == MostPlayed || c == LastPlayed || c == RecentlyAdded
    ensures Resolve(Key(c)).Query? && Resolve(Key(c)).request.GetAlbums?
    ensures Resolve(Key(c)).request.parentId == Key(c) && Resolve(Key(c)).request.limit == 100
    ensures Resolve(Key(c)).request.mode ==
      (if c == MostPlayed then "frequent" else if c == LastPlayed then "recent" else "newest")
  {
    ExactRoutes(c);
  }

  /** Best of and Made for you issue the same best-of starred-artists query; Starred artists asks for all of them. */
  lemma ArtistCategoryRoutes(c: Category)
    requires c == BestOf || c == MadeForYou || c == StarredArtists
    ensures Resolve(Key(c)) == Query(GetStarredArtists(Key(c), c != StarredArtists))
  {
    ExactRoutes(c);
  }

  /** The starred tracks and albums, the folders, the playlists, the podcasts and the radio stations each have their own query. */
  lemma CatalogueRoutes(c: Category)
    requires c == StarredTracks || c == StarredAlbums || c == Folders || c == Playlists || c == Podcasts || c == Radio
    ensures c == StarredTracks ==> Resolve(Key(c)) == Query(GetStarredSongs(Key(c)))
    ensures c == StarredAlbums ==> Resolve(Key(c)) == Query(GetStarredAlbums(Key(c)))
    ensures c == Folders ==> Resolve(Key(c)) == Query(GetMusicFolders(Key(c)))
    ensures c == Playlists ==> Resolve(Key(c)) == Query(GetPlaylists(Key(c)))
    ensures c == Podcasts ==> Resolve(Key(c)) == Query(GetNewestPodcastEpisodes(Key(c), 100))
    ensures c == Radio ==> Resolve(Key(c)) == Query(GetInternetRadioStations(Key(c)))
  {
    ExactRoutes(c);
  }


  /**
   * Drill-down: a wired category id followed by a non-empty album key asks
   * for that album's tracks, with exactly the key as argument.
   */
  lemma DrillDown(prefix: string, key: string)
    requires prefix in DrillDownPrefixes && key != ""
    ensures Resolve(prefix + key) == Query(GetAlbumTracks(key))
  {
    var id := prefix + key;
    CompoundIsNotDeclared(prefix, key);
    RemovePrefixOfConcat(prefix, key);
    if prefix != MOST_PLAYED_ID && StartsWith(id, MOST_PLAYED_ID) {
      AtMostOneIdPrefix(id, prefix, MOST_PLAYED_ID);
    }
    if prefix == RECENTLY_ADDED_ID && StartsWith(id, LAST_PLAYED_ID) {
      AtMostOneIdPrefix(id, prefix, LAST_PLAYED_ID);
    }
  }

  /** An exact id wins over a prefix: a wired category id alone is a category query, never a drill-down. */
  lemma ExactBeforePrefix(prefix: string)
    requires prefix in DrillDownPrefixes
    ensures Resolve(prefix).Query? && Resolve(prefix).request.GetAlbums?
    ensures Resolve(prefix).request.parentId == prefix && Resolve(prefix).request.limit == 100
  {
  }

  /** No id gets BAD_VALUE if it is declared or begins with one of the three wired prefixes. */
  lemma BadValueOnlyForUnknown(id: string)
    requires Resolve(id) == BadValue
    ensures id !in AllIds
    ensures forall p :: p in DrillDownPrefixes ==> !StartsWith(id, p)
  {
    assert Classify(id).None?;
    ClassifyDeclared(id);
  }

  /** Every other id gets BAD_VALUE. */
  lemma UnknownIsBadValue(id: string)
    requires id !in AllIds
    requires forall p :: p in DrillDownPrefixes ==> !StartsWith(id, p)
    ensures Resolve(id) == BadValue
  {
    assert Classify(id).None?;
  }

  /**
   * A compound id under an unwired category (Best of, Made for you,
   * Folders, Playlists, Podcasts, Radio) is rejected with BAD_VALUE.
   */
  lemma UnwiredPrefixIsBadValue(prefix: string, key: string)
    requires prefix in UnwiredPrefixes && key != ""
    ensures Resolve(prefix + key) == BadValue
  {
    var id := prefix + key;
    CompoundIsNotDeclared(prefix, key);
    RemovePrefixOfConcat(prefix, key);
    forall p | p in DrillDownPrefixes
      ensures !StartsWith(id, p)
    {
      if StartsWith(id, p) {
        AtMostOneIdPrefix(id, prefix, p);
      }
    }
    UnknownIsBadValue(id);
  }

  /** Every query names its own id as parent, except a drill-down, whose argument is the key after a wired prefix. */
  lemma QueryParent(id: string)
    requires Resolve(id).Query?
    ensures !Resolve(id).request.GetAlbumTracks? ==> Resolve(id).request.parentId == id
    ensures Resolve(id).request.GetAlbumTracks? ==>
      exists p :: p in DrillDownPrefixes && id == p + Resolve(id).request.albumId
  {
    if Resolve(id).request.GetAlbumTracks? {
      var p := if StartsWith(id, MOST_PLAYED_ID) then MOST_PLAYED_ID
        else if StartsWith(id, LAST_PLAYED_ID) then LAST_PLAYED_ID
        else RECENTLY_ADDED_ID;
      assert p in DrillDownPrefixes && id == p + Resolve(id).request.albumId;
    }
  }

  /** A query is a drill-down exactly when the id names no category (see ClassifyDeclared). */
  lemma DrillDownExactlyUnnamed(id: string)
    requires Resolve(id).Query?
    ensures Resolve(id).request.GetAlbumTracks? <==> Classify(id).None?
  {
  }
}
