/**
 * The identifier scheme of the navigation tree: the fixed category ids,
 * prefix tests and prefix stripping, and the fact that makes compound ids
 * (a category id followed by an entity key) decode unambiguously: every id
 * is bracketed, so no id is a prefix of another.
 */
module MediaIds {

  import opened Wrappers

  // Root
  const ROOT_ID: string := "[rootID]"

  // First level
  const HOME_ID: string := "[homeID]"
  const LIBRARY_ID: string := "[libraryID]"
  const OTHER_ID: string := "[otherID]"

  // Second level, under HOME_ID
  const MOST_PLAYED_ID: string := "[mostPlayedID]"
  const LAST_PLAYED_ID: string := "[lastPlayedID]"
  const RECENTLY_ADDED_ID: string := "[recentlyAddedID]"
  const BEST_OF_ID: string := "[bestOfID]"
  const MADE_FOR_YOU_ID: string := "[madeForYouID]"
  const STARRED_TRACKS_ID: string := "[starredTracksID]"
  const STARRED_ALBUMS_ID: string := "[starredAlbumsID]"
  const STARRED_ARTISTS_ID: string := "[starredArtistsID]"

  // Second level, under LIBRARY_ID
  const FOLDER_ID: string := "[folderID]"
  const PLAYLIST_ID: string := "[playlistID]"

  // Second level, under OTHER_ID
  const PODCAST_ID: string := "[podcastID]"
  const RADIO_ID: string := "[radioID]"
  const DOWNLOAD_ID: string := "[downloadID]"

  /** The ids whose children are stored in the tree. */
  const ContainerIds: seq<string> := [ROOT_ID, HOME_ID, LIBRARY_ID, OTHER_ID]

  /** The ids whose children come from the data source. */
  const CategoryIds: seq<string> := [
    MOST_PLAYED_ID, LAST_PLAYED_ID, RECENTLY_ADDED_ID, BEST_OF_ID, MADE_FOR_YOU_ID,
    STARRED_TRACKS_ID, STARRED_ALBUMS_ID, STARRED_ARTISTS_ID,
    FOLDER_ID, PLAYLIST_ID,
    PODCAST_ID, RADIO_ID
  ]

  /** Every declared id, in declaration order: the containers, the dynamic categories, then Downloads. */
  const AllIds: seq<string> := [
    ROOT_ID, HOME_ID, LIBRARY_ID, OTHER_ID,
    MOST_PLAYED_ID, LAST_PLAYED_ID, RECENTLY_ADDED_ID, BEST_OF_ID, MADE_FOR_YOU_ID,
    STARRED_TRACKS_ID, STARRED_ALBUMS_ID, STARRED_ARTISTS_ID,
    FOLDER_ID, PLAYLIST_ID,
    PODCAST_ID, RADIO_ID, DOWNLOAD_ID
  ]

  /** The declared ids are the containers, then the dynamic categories, then Downloads. */
  lemma AllIdsPartition()
    ensures AllIds == ContainerIds + CategoryIds + [DOWNLOAD_ID]
  {
  }

  /** The prefixes whose compound ids are routed to an album's track list. */
  const DrillDownPrefixes: seq<string> := [MOST_PLAYED_ID, LAST_PLAYED_ID, RECENTLY_ADDED_ID]

  /** The prefixes the dispatcher tests but has no handler for. */
  const UnwiredPrefixes: seq<string> := [BEST_OF_ID, MADE_FOR_YOU_ID, FOLDER_ID, PLAYLIST_ID, PODCAST_ID, RADIO_ID]

  /** `s` begins with `prefix` (the string `startsWith` test). */
  predicate StartsWith(s: string, prefix: string) {
    |prefix| <= |s| && s[..|prefix|] == prefix
  }

  /** Beginning with `prefix` is being `prefix` followed by something. */
  lemma StartsWithIsConcat(s: string, prefix: string)
    ensures StartsWith(s, prefix) <==> exists rest :: s == prefix + rest
  {
    if StartsWith(s, prefix) {
      assert s == prefix + s[|prefix|..];
    }
    if exists rest :: s == prefix + rest {
      var rest :| s == prefix + rest;
      assert s[..|prefix|] == prefix;
    }
  }

  /** `s` without a leading `prefix`; `s` itself when it does not begin with `prefix` (the string `removePrefix`). */
  function RemovePrefix(s: string, prefix: string): (r: string)
    ensures StartsWith(s, prefix) ==> prefix + r == s
    ensures !StartsWith(s, prefix) ==> r == s
  {
    if StartsWith(s, prefix) then s[|prefix|..] else s
  }

  /** Encoding a compound id and stripping its category prefix gives back the key. */
  lemma RemovePrefixOfConcat(prefix: string, key: string)
    ensures StartsWith(prefix + key, prefix)
    ensures RemovePrefix(prefix + key, prefix) == key
  {
    assert (prefix + key)[..|prefix|] == prefix;
    assert (prefix + key)[|prefix|..] == key;
  }

  /** Opens with `[`, closes with `]`, and has no `]` before the last character. */
  predicate Bracketed(s: string) {
    && 2 <= |s|
    && s[0] == '['
    && s[|s| - 1] == ']'
    && forall i :: 0 <= i < |s| - 1 ==> s[i] != ']'
  }

  lemma FirstLevelBracketed()
    ensures Bracketed(ROOT_ID) && Bracketed(HOME_ID) && Bracketed(LIBRARY_ID) && Bracketed(OTHER_ID)
  {
  }

  lemma HomeLevelBracketed()
    ensures Bracketed(MOST_PLAYED_ID) && Bracketed(LAST_PLAYED_ID) && Bracketed(RECENTLY_ADDED_ID)
    ensures Bracketed(BEST_OF_ID) && Bracketed(MADE_FOR_YOU_ID)
  {
  }

  lemma StarredBracketed()
    ensures Bracketed(STARRED_TRACKS_ID) && Bracketed(STARRED_ALBUMS_ID) && Bracketed(STARRED_ARTISTS_ID)
  {
  }

  lemma SecondLevelBracketed()
    ensures Bracketed(FOLDER_ID) && Bracketed(PLAYLIST_ID)
    ensures Bracketed(PODCAST_ID) && Bracketed(RADIO_ID) && Bracketed(DOWNLOAD_ID)
  {
  }

  /** Every declared id is bracketed. */
  lemma AllIdsBracketed()
    ensures forall i :: 0 <= i < |AllIds| ==> Bracketed(AllIds[i])
  {
    FirstLevelBracketed();
    HomeLevelBracketed();
    StarredBracketed();
    SecondLevelBracketed();
  }

  /** The declared ids are pairwise different. */
  lemma AllIdsDistinct()
    ensures forall i, j :: 0 <= i < j < |AllIds| ==> AllIds[i] != AllIds[j]
  {
  }

  /** A bracketed string that begins with another bracketed string is that string. */
  lemma BracketedPrefixIsWhole(a: string, b: string)
    requires Bracketed(a) && Bracketed(b) && StartsWith(b, a)
    ensures a == b
  {
  }

  /** Two bracketed strings that both begin the same string are equal. */
  lemma BracketedPrefixUnique(s: string, a: string, b: string)
    requires Bracketed(a) && Bracketed(b)
    requires StartsWith(s, a) && StartsWith(s, b)
    ensures a == b
  {
    if |a| <= |b| {
      assert b[..|a|] == s[..|a|];
      BracketedPrefixIsWhole(a, b);
    } else {
      assert a[..|b|] == s[..|b|];
      BracketedPrefixIsWhole(b, a);
    }
  }


  /** No declared id is a prefix of a different declared id. */
  lemma NoIdIsPrefixOfAnother()
    ensures forall i, j :: 0 <= i < |AllIds| && 0 <= j < |AllIds| && i != j ==> !StartsWith(AllIds[j], AllIds[i])
  {
    AllIdsBracketed();
    AllIdsDistinct();
    forall i, j | 0 <= i < |AllIds| && 0 <= j < |AllIds| && i != j
      ensures !StartsWith(AllIds[j], AllIds[i])
    {
      if StartsWith(AllIds[j], AllIds[i]) {
        BracketedPrefixIsWhole(AllIds[i], AllIds[j]);
      }
    }
  }

  /**
   * A string begins with at most one declared id: the category of a compound
   * id is determined, whatever order the prefixes are tested in.
   */
  lemma AtMostOneIdPrefix(s: string, a: string, b: string)
    requires a in AllIds && b in AllIds
    requires StartsWith(s, a) && StartsWith(s, b)
    ensures a == b
  {
    AllIdsBracketed();
    BracketedPrefixUnique(s, a, b);
  }

  /** A declared id followed by a non-empty key is not itself a declared id. */
  lemma CompoundIsNotDeclared(prefix: string, key: string)
    requires prefix in AllIds && key != ""
    ensures prefix + key !in AllIds
  {
    RemovePrefixOfConcat(prefix, key);
    if prefix + key in AllIds {
      AtMostOneIdPrefix(prefix + key, prefix, prefix + key);
    }
  }

  /** The seventeen declared ids as an enumeration, one constructor per id. */
  datatype Category =
    | Root
    | Home | Library | Other
    | MostPlayed | LastPlayed | RecentlyAdded | BestOf | MadeForYou
    | StarredTracks | StarredAlbums | StarredArtists
    | Folders | Playlists
    | Podcasts | Radio | Downloads

  /** The id string of a category. */
  function Key(c: Category): string {
    match c
    case Root => ROOT_ID
    case Home => HOME_ID
    case Library => LIBRARY_ID
    case Other => OTHER_ID
    case MostPlayed => MOST_PLAYED_ID
    case LastPlayed => LAST_PLAYED_ID
    case RecentlyAdded => RECENTLY_ADDED_ID
    case BestOf => BEST_OF_ID
    case MadeForYou => MADE_FOR_YOU_ID
    case StarredTracks => STARRED_TRACKS_ID
    case StarredAlbums => STARRED_ALBUMS_ID
    case StarredArtists => STARRED_ARTISTS_ID
    case Folders => FOLDER_ID
    case Playlists => PLAYLIST_ID
    case Podcasts => PODCAST_ID
    case Radio => RADIO_ID
    case Downloads => DOWNLOAD_ID
  }

  /** The category an id string names exactly, if any. */
  function Classify(id: string): (r: Option<Category>)
    ensures r.Some? ==> Key(r.value) == id
  {
    if id == ROOT_ID then Some(Root)
    else if id == HOME_ID then Some(Home)
    else if id == LIBRARY_ID then Some(Library)
    else if id == OTHER_ID then Some(Other)
    else if id == MOST_PLAYED_ID then Some(MostPlayed)
    else if id == LAST_PLAYED_ID then Some(LastPlayed)
    else if id == RECENTLY_ADDED_ID then Some(RecentlyAdded)
    else if id == BEST_OF_ID then Some(BestOf)
    else if id == MADE_FOR_YOU_ID then Some(MadeForYou)
    else if id == STARRED_TRACKS_ID then Some(StarredTracks)
    else if id == STARRED_ALBUMS_ID then Some(StarredAlbums)
    else if id == STARRED_ARTISTS_ID then Some(StarredArtists)
    else if id == FOLDER_ID then Some(Folders)
    else if id == PLAYLIST_ID then Some(Playlists)
    else if id == PODCAST_ID then Some(Podcasts)
    else if id == RADIO_ID then Some(Radio)
    else if id == DOWNLOAD_ID then Some(Downloads)
    else None
  }

  /** Every category's id is declared. */
  lemma KeyIsDeclared(c: Category)
    ensures Key(c) in AllIds
  {
  }

  /** An id names a category exactly when it is declared. */
  lemma ClassifyDeclared(id: string)
    ensures Classify(id).Some? <==> id in AllIds
  {
  }

  /** Every category is recovered from its id string, so distinct categories have distinct ids. */
  lemma ClassifyKey(c: Category)
    ensures Classify(Key(c)) == Some(c)
  {
  }
}
