/**
 * Value types shared by the player queue and the peer session: songs and
 * user profiles. Their Swift declarations (Song, PeerProfile) live in files
 * that are not part of this model; the fields follow their uses.
 */
module Music {
  import opened Wrappers

  /** An absolute URL; `URL(string:)` yields nil for the empty string, so a URL is never empty. */
  type Url = s: string | s != "" witness "/"

  /** A catalogue song as searched and requested (`id` is the store id). */
  datatype Song = Song(title: string, artist: string, artworkUrl: Url, id: string, profileImageUrl: Option<Url>)

  /** A user's profile: display name and optional avatar URL. */
  datatype Profile = Profile(name: string, imageUrl: Option<Url>)
}
