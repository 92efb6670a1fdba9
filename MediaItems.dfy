/**
 * The records the tree hands to the browsing client: a media item with its
 * metadata. Only the attributes the tree sets are modelled; the builders of
 * the media framework become two plain datatypes.
 */
module MediaItems {

  import opened Wrappers

  /** The media-type tags the tree uses (the MEDIA_TYPE_* constants of the media framework). */
  datatype MediaType =
    | FolderMixed
    | FolderAlbums
    | FolderArtists
    | FolderPlaylists
    | FolderPodcasts
    | FolderRadioStations
    | Music

  /** The metadata attributes the tree sets; absent optional values are `None`. */
  datatype MediaMetadata = MediaMetadata(
    title: string,
    albumTitle: Option<string>,
    artist: Option<string>,
    genre: Option<string>,
    isBrowsable: bool,
    isPlayable: bool,
    artworkUri: Option<string>,
    mediaType: MediaType)

  /** A media item: its id, its metadata and the locator it streams from, if any. */
  datatype MediaItem = MediaItem(mediaId: string, metadata: MediaMetadata, uri: Option<string>)

  /** The ids of `items`, in order. */
  function IdsOf(items: seq<MediaItem>): (ids: seq<string>)
    ensures |ids| == |items|
    ensures forall i :: 0 <= i < |items| ==> ids[i] == items[i].mediaId
  {
    seq(|items|, i requires 0 <= i < |items| => items[i].mediaId)
  }

  /** A node that can only be browsed into: not playable, browsable, nothing to stream. */
  predicate IsContainer(item: MediaItem) {
    && !item.metadata.isPlayable
    && item.metadata.isBrowsable
    && item.uri == None
  }

  /** A leaf that can only be played: playable, not browsable, with a locator. */
  predicate IsPlayableLeaf(item: MediaItem) {
    && item.metadata.isPlayable
    && !item.metadata.isBrowsable
    && item.uri.Some?
  }

  /**
   * Assembles an item from its attributes, each optional one defaulting to
   * absent. The list of subtitle configurations the source also accepts is
   * left out: the tree never passes one.
   */
  function BuildMediaItem(
    title: string,
    mediaId: string,
    isPlayable: bool,
    isBrowsable: bool,
    mediaType: MediaType,
    album: Option<string> := None,
    artist: Option<string> := None,
    genre: Option<string> := None,
    sourceUri: Option<string> := None,
    imageUri: Option<string> := None): (item: MediaItem)
    ensures item.mediaId == mediaId && item.uri == sourceUri
    ensures item.metadata.title == title && item.metadata.albumTitle == album
    ensures item.metadata.artist == artist && item.metadata.genre == genre
    ensures item.metadata.isPlayable == isPlayable && item.metadata.isBrowsable == isBrowsable
    ensures item.metadata.mediaType == mediaType && item.metadata.artworkUri == imageUri
    ensures IsContainer(item) <==> !isPlayable && isBrowsable && sourceUri == None
    ensures IsPlayableLeaf(item) <==> isPlayable && !isBrowsable && sourceUri.Some?
  {
    var metadata := MediaMetadata(title, album, artist, genre, isBrowsable, isPlayable, imageUri, mediaType);
    MediaItem(mediaId, metadata, sourceUri)
  }
}
