/** The parts of the music-streaming API's JSON payloads that the views
    read. Every field here is one the API always sends; only the length of
    an image list varies. A `url` field stands for the object's
    `external_urls["spotify"]` entry. */
module Payload {

  /** One artwork entry; the API lists an object's images largest first. */
  datatype Image = Image(url: string)

  /** The short artist object nested in a track: only its name is read. */
  datatype ArtistRef = ArtistRef(name: string, url: string)

  datatype Album = Album(name: string, images: seq<Image>, url: string)

  /** One item of the top-tracks list, and the track of a play-history entry. */
  datatype Track = Track(name: string, artists: seq<ArtistRef>, album: Album, url: string)

  /** One item of the top-artists list. */
  datatype Artist = Artist(name: string, genres: seq<string>, images: seq<Image>, url: string)

  /** One item of the recently-played list: the track sits one level deeper. */
  datatype PlayHistory = PlayHistory(track: Track, playedAt: string)
}
