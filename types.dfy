/** The records the core passes around (src/types/spotify.ts), reduced to
    the fields the transfer engine reads. */
module SpotifyTypes {
  import opened Wrappers

  type Id = string

  datatype SpotifyUser = SpotifyUser(id: Id, displayName: string)

  datatype AuthTokens = AuthTokens(
    accessToken: string,
    tokenType: string,
    expiresIn: nat,
    refreshToken: string,
    scope: string)

  datatype Playlist = Playlist(
    id: Id,
    name: string,
    description: string,
    isPublic: bool,
    ownerId: Id)

  /** An entry of a track listing. The service sends `null` for the id or
      the URI of some entries (local files, removed tracks): `None` here. */
  datatype SavedTrack = SavedTrack(id: Option<Id>, uri: Option<Id>)

  datatype Artist = Artist(id: Id, name: string)

  /** An entry of the saved-albums listing, `{ album: { id } }`. */
  datatype SavedAlbum = SavedAlbum(albumId: Option<Id>)

  /** What one account holds on the service, as its listing endpoints
      return it, in the service's order. */
  datatype Library = Library(
    playlists: seq<Playlist>,
    playlistTracks: map<Id, seq<SavedTrack>>,
    likedSongs: seq<SavedTrack>,
    followedArtists: seq<Artist>,
    savedAlbums: seq<SavedAlbum>)
  {
    /** The tracks listed for one playlist; none for an unknown id. */
    function TracksOf(playlistId: Id): seq<SavedTrack> {
      if playlistId in playlistTracks then playlistTracks[playlistId] else []
    }
  }
}
