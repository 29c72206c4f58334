# MySpoti core in Dafny

MySpoti is a small Flask web client for a music-streaming API. After the
user signs in, it shows their top tracks, their top artists and their
recently played tracks. This project models the part of `MySpoti/main.py`
that the repository implements itself:

- **Query-parameter coercion.** `validate_time_range` turns any string into
  one of `short_term`, `medium_term`, `long_term` and pairs it with the label
  from a fixed table. `validate_limit` turns any integer into one of the page
  sizes 12, 24, 48, 50. Neither raises an error; bad input becomes the
  default (`short_term`, 12). Both are modelled in module `Params` as total
  functions.
- **Response shaping.** The route handlers flatten the API's nested list
  payloads into display records. Module `Payload` holds the payload shapes
  (track, artist, album, image, play-history entry). Module `Strings` holds
  the `", "` join. Module `Views` holds the three shaping loops as methods:
  - `TopTracks` builds a map keyed by list position;
  - `TopArtists` does the same for artists;
  - `RecentlyPlayed` appends four fragments per entry to a growing sequence.

The source reads `images[1]` for top tracks and top artists, and
`images[0]` for a recently played track, with no guard. When a list is too
short, Python raises an index error and the request fails as a whole. The
model keeps this behaviour. Each per-item builder (`TrackViewOf`,
`ArtistViewOf`, `EntryFragments`) requires the image it reads. Each page
method returns `ImageIndexError(i)`, where `i` is the first position whose
image list is too short, and returns no partial page: one item without
enough artwork fails its whole page.

The allowed page sizes follow the code in `main.py:33`: {12, 24, 48, 50}.
The image indices also follow the code: 1 for tracks and artists, 0 for
play history.

## Model

| member | source | states |
|---|---|---|
| `Params.ValidateTimeRange` | MySpoti/main.py:15-26 | the returned range is always a key of the label table and the label is its entry; the range equals the input exactly when the input is an allowed range; any other input (the empty string included) gives `("short_term", "last 4 weeks")` |
| `Params.ValidateTimeRangeIdempotent` | MySpoti/main.py:15-26 | validating the returned range again gives the same pair |
| `Params.TimeRangeTable` | MySpoti/main.py:19-23 | the table has exactly the three ranges, and each one validates to itself with its own label |
| `Params.ValidateLimit` | MySpoti/main.py:29-35 | the result is always in {12, 24, 48, 50}; it equals the input exactly when the input is allowed; any other input gives 12 |
| `Params.ValidateLimitIdempotent` | MySpoti/main.py:29-35 | validating a validated limit changes nothing |
| `Strings.JoinShort` | MySpoti/main.py:183 | joining no parts gives `""`; joining one part gives that part |
| `Strings.JoinLength` | MySpoti/main.py:183 | the joined string's length is the sum of the parts' lengths plus one separator between each two neighbours |
| `Strings.JoinConcat` | MySpoti/main.py:183 | joining two non-empty lists one after the other is the first join, the separator, then the second join, so order is kept |
| `Strings.JoinAppend` | MySpoti/main.py:183 | appending a part to a non-empty list appends the separator and that part to the join |
| `Strings.JoinPieceAt` | MySpoti/main.py:183 | part `i` appears unchanged in the join, after all earlier parts and `i` separators |
| `Views.Names` | MySpoti/main.py:147 | the artist-name list has one entry per artist, and entry `i` is the name of artist `i` |
| `Views.ArtistsLineShort` | MySpoti/main.py:147 | a track with no artists gets `""`; a track with one artist gets that artist's name |
| `Views.ArtistsLineConcat` | MySpoti/main.py:147 | the artists line keeps the artists' order: the line of two lists one after the other is the two lines joined by `", "` |
| `Views.TopTracks` | MySpoti/main.py:143-151 | succeeds exactly when every track has at least two album images, and otherwise names the first track that does not; on success the keys are exactly 0..n-1 and entry `i` is the view of track `i` (name, artists joined by `", "`, album name, second album image, track URL) |
| `Views.TopArtists` | MySpoti/main.py:179-186 | succeeds exactly when every artist has at least two images, and otherwise names the first artist that does not; on success the keys are exactly 0..n-1 and entry `i` is the view of artist `i` (name, genres joined by `", "`, second image, URL) |
| `Views.RecentlyPlayed` | MySpoti/main.py:213-219 | succeeds exactly when every entry's album has an image, and otherwise names the first entry that does not; on success the page has four fragments per entry and position `n` holds fragment `n % 4` of entry `n / 4`, so entries keep their order |
| `Views.PlayedUnique` | MySpoti/main.py:213-218 | any page laid out that way is the recently-played page of the history: the result of `RecentlyPlayed` is exactly the concatenation, entry after entry, of each entry's fragments |
| `Views.PlayedLength` | MySpoti/main.py:214-218 | the recently-played page has exactly four fragments per entry |
| `Views.PlayedAt` | MySpoti/main.py:214-218 | fragment `k` of entry `i` is at position `4 * i + k`: the track link, the artists line, the album link, then the first album image |
| `Views.PlayedConcat` | MySpoti/main.py:213-218 | the page of two histories one after the other is the two pages one after the other |

## Left out

- OAuth and token handling (`SpotifyOAuth`, `validate_token`, `get_access_token`, `get_authorize_url`, the session cache handler; main.py:53-60, 75-89 and the same lines in every route): these are calls into the spotipy library, whose logic is not in this repository.
- The data API calls (`me`, `current_user_playing_track`, `current_user_top_tracks`, `current_user_top_artists`, `current_user_recently_played`): network I/O. Their results are the method inputs.
- Flask plumbing: routing, `render_template`, `redirect`, `request.args` defaults, the 404/500 handlers, `session.pop` in `sign_out`, `app.run`, and all of `MySpoti/app/__init__.py`.
- The `int(...)` parse of the `limit` query argument (main.py:140, 176), which raises on non-numeric text. `ValidateLimit` takes an integer.
- The HTML markup of the recently-played page. Each entry becomes four `Fragment` records in the order the source writes them.
- `currently_playing` (main.py:100-123): it shapes one item with no loop and no validation, and it is not part of this model.
- Payload fields the views never read, and JSON objects with missing keys. A missing key would raise a key error in the source; the datatypes assume the API always sends them.
