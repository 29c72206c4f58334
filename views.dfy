/** The shaping of API list payloads into the records the pages display.
    The source indexes image lists without a guard, so an item with too
    few images raises an index error that aborts the whole request; the
    page builders below report that as `ImageIndexError` with the position
    of the first such item, and return nothing built so far. */
module Views {
  import opened Strings
  import opened Payload

  /** What a page build yields: the shaped page, or the position of the
      first item whose image list was too short to index. */
  datatype Outcome<V> = Ok(value: V) | ImageIndexError(item: nat)

  /** One entry of the top-tracks page. */
  datatype TrackView = TrackView(name: string, artists: string, album: string, albumCover: string, url: string)

  /** One entry of the top-artists page. */
  datatype ArtistView = ArtistView(name: string, genres: string, image: string, url: string)

  /** The pieces the recently-played page writes for one entry, without
      their markup: the track link, the artists line, the album link and
      the cover image. */
  datatype Fragment =
    | TrackLink(url: string, name: string)
    | ByArtists(artists: string)
    | FromAlbum(url: string, name: string)
    | Cover(src: string)

  /** The names of the artists, in the order given. */
  function Names(artists: seq<ArtistRef>): (names: seq<string>)
    ensures |names| == |artists|
    ensures forall i :: 0 <= i < |artists| ==> names[i] == artists[i].name
    decreases |artists|
  {
    if |artists| == 0 then [] else [artists[0].name] + Names(artists[1..])
  }

  /** The artists line of a track: the names joined by the separator. */
  function ArtistsLine(artists: seq<ArtistRef>): string
  {
    Join(Names(artists), SEPARATOR)
  }

  /** No artists give the empty line, one artist gives just that name. */
  lemma ArtistsLineShort(a: ArtistRef)
    ensures ArtistsLine([]) == ""
    ensures ArtistsLine([a]) == a.name
  {
    assert Names([a]) == [a.name];
  }

  /** The names of two artist lists one after the other. */
  lemma NamesConcat(a: seq<ArtistRef>, b: seq<ArtistRef>)
    ensures Names(a + b) == Names(a) + Names(b)
  {
  }

  /** The artists line keeps the artists' order: the line of a list split
      in two is the first half's line, the separator, the second half's. */
  lemma ArtistsLineConcat(a: seq<ArtistRef>, b: seq<ArtistRef>)
    requires |a| > 0 && |b| > 0
    ensures ArtistsLine(a + b) == ArtistsLine(a) + SEPARATOR + ArtistsLine(b)
  {
    NamesConcat(a, b);
    JoinConcat(Names(a), Names(b), SEPARATOR);
  }

  /** A top track's view reads the second album image. */
  predicate HasCover(t: Track)
  {
    |t.album.images| > 1
  }

  function TrackViewOf(t: Track): TrackView
    requires HasCover(t)
  {
    TrackView(t.name, ArtistsLine(t.artists), t.album.name, t.album.images[1].url, t.url)
  }

  /** A top artist's view reads the second artist image. */
  predicate HasImage(a: Artist)
  {
    |a.images| > 1
  }

  function ArtistViewOf(a: Artist): ArtistView
    requires HasImage(a)
  {
    ArtistView(a.name, Join(a.genres, SEPARATOR), a.images[1].url, a.url)
  }

  /** A recently-played entry reads the first album image of its track. */
  predicate HasArtwork(p: PlayHistory)
  {
    |p.track.album.images| > 0
  }

  function EntryFragments(p: PlayHistory): (f: seq<Fragment>)
    requires HasArtwork(p)
  {
    var t := p.track;
    [TrackLink(t.url, t.name), ByArtists(ArtistsLine(t.artists)),
     FromAlbum(t.album.url, t.album.name), Cover(t.album.images[0].url)]
  }

  /** The keys of a page of `n` items are exactly the positions 0 to n - 1. */
  ghost predicate KeyedByPosition<V>(m: map<int, V>, n: nat)
  {
    forall k :: k in m <==> 0 <= k < n
  }

  /** Every entry of the history can be shaped. */
  predicate AllHaveArtwork(items: seq<PlayHistory>)
  {
    forall i :: 0 <= i < |items| ==> HasArtwork(items[i])
  }

  /** The recently-played page: each entry's fragments, entry after entry. */
  function Played(items: seq<PlayHistory>): seq<Fragment>
    requires AllHaveArtwork(items)
    decreases |items|
  {
    if |items| == 0 then []
    else Played(items[..|items| - 1]) + EntryFragments(items[|items| - 1])
  }

  /** Every entry contributes exactly its four fragments. */
  lemma {:induction false} PlayedLength(items: seq<PlayHistory>)
    requires AllHaveArtwork(items)
    ensures |Played(items)| == 4 * |items|
    decreases |items|
  {
    if |items| > 0 {
      PlayedLength(items[..|items| - 1]);
    }
  }

  /** Fragment k of entry i sits at position 4 * i + k: the page keeps the
      order of the history and writes each entry's pieces in a fixed order. */
  lemma {:induction false} PlayedAt(items: seq<PlayHistory>, i: nat, k: nat)
    requires AllHaveArtwork(items)
    requires i < |items| && k < 4
    ensures 4 * i + k < |Played(items)|
    ensures Played(items)[4 * i + k] == EntryFragments(items[i])[k]
    decreases |items|
  {
    var init := items[..|items| - 1];
    PlayedLength(init);
    if i < |items| - 1 {
      PlayedAt(init, i, k);
      assert init[i] == items[i];
    }
  }

  /** A page whose position n holds fragment n % 4 of entry n / 4, four
      fragments per entry, is the recently-played page of that history. */
  lemma PlayedUnique(items: seq<PlayHistory>, page: seq<Fragment>)
    requires AllHaveArtwork(items)
    requires |page| == 4 * |items|
    requires forall n :: 0 <= n < |page| ==> page[n] == EntryFragments(items[n / 4])[n % 4]
    ensures page == Played(items)
  {
    var played := Played(items);
    PlayedLength(items);
    forall n | 0 <= n < |page|
      ensures page[n] == played[n]
    {
      var i, k := n / 4, n % 4;
      assert n == 4 * i + k;
      PlayedAt(items, i, k);
      assert played[n] == EntryFragments(items[i])[k];
    }
  }

  /** The page of two histories one after the other is the two pages one
      after the other. */
  lemma {:induction false} PlayedConcat(a: seq<PlayHistory>, b: seq<PlayHistory>)
    requires AllHaveArtwork(a)
    requires AllHaveArtwork(b)
    ensures AllHaveArtwork(a + b)
    ensures Played(a + b) == Played(a) + Played(b)
    decreases |b|
  {
    if |b| == 0 {
      assert a + b == a;
    } else {
      var initB := b[..|b| - 1];
      assert (a + b)[..|a + b| - 1] == a + initB;
      assert (a + b)[|a + b| - 1] == b[|b| - 1];
      PlayedConcat(a, initB);
    }
  }

  /** The top-tracks page: position i of the list maps to the view of item
      i, and nothing else is in the map. */
  method TopTracks(items: seq<Track>) returns (r: Outcome<map<int, TrackView>>)
    ensures r.Ok? <==> forall i :: 0 <= i < |items| ==> HasCover(items[i])
    ensures r.ImageIndexError? ==>
      r.item < |items| && !HasCover(items[r.item]) &&
      forall j :: 0 <= j < r.item ==> HasCover(items[j])
    ensures r.Ok? ==>
      KeyedByPosition(r.value, |items|) &&
      forall i :: 0 <= i < |items| ==> HasCover(items[i]) && r.value[i] == TrackViewOf(items[i])
  {
    var topTracks: map<int, TrackView> := map[];
    for i := 0 to |items|
      invariant forall j :: 0 <= j < i ==> HasCover(items[j])
      invariant KeyedByPosition(topTracks, i)
      invariant forall j :: 0 <= j < i ==> topTracks[j] == TrackViewOf(items[j])
    {
      var item := items[i];
      if !HasCover(item) {
        return ImageIndexError(i);
      }
      topTracks := topTracks[i := TrackViewOf(item)];
    }
    return Ok(topTracks);
  }

  /** The top-artists page: position i of the list maps to the view of item
      i, and nothing else is in the map. */
  method TopArtists(items: seq<Artist>) returns (r: Outcome<map<int, ArtistView>>)
    ensures r.Ok? <==> forall i :: 0 <= i < |items| ==> HasImage(items[i])
    ensures r.ImageIndexError? ==>
      r.item < |items| && !HasImage(items[r.item]) &&
      forall j :: 0 <= j < r.item ==> HasImage(items[j])
    ensures r.Ok? ==>
      KeyedByPosition(r.value, |items|) &&
      forall i :: 0 <= i < |items| ==> HasImage(items[i]) && r.value[i] == ArtistViewOf(items[i])
  {
    var topArtists: map<int, ArtistView> := map[];
    for i := 0 to |items|
      invariant forall j :: 0 <= j < i ==> HasImage(items[j])
      invariant KeyedByPosition(topArtists, i)
      invariant forall j :: 0 <= j < i ==> topArtists[j] == ArtistViewOf(items[j])
    {
      var item := items[i];
      if !HasImage(item) {
        return ImageIndexError(i);
      }
      topArtists := topArtists[i := ArtistViewOf(item)];
    }
    return Ok(topArtists);
  }

  /** The recently-played page, grown entry by entry. */
  method RecentlyPlayed(items: seq<PlayHistory>) returns (r: Outcome<seq<Fragment>>)
    ensures r.Ok? <==> AllHaveArtwork(items)
    ensures r.ImageIndexError? ==>
      r.item < |items| && !HasArtwork(items[r.item]) &&
      forall j :: 0 <= j < r.item ==> HasArtwork(items[j])
    ensures r.Ok? ==> |r.value| == 4 * |items|
    ensures r.Ok? ==>
      forall n :: 0 <= n < |r.value| ==>
        n / 4 < |items| && HasArtwork(items[n / 4]) &&
        r.value[n] == EntryFragments(items[n / 4])[n % 4]
  {
    var tracks: seq<Fragment> := [];
    for i := 0 to |items|
      invariant forall j :: 0 <= j < i ==> HasArtwork(items[j])
      invariant tracks == Played(items[..i])
    {
      if !HasArtwork(items[i]) {
        return ImageIndexError(i);
      }
      assert items[..i + 1][..i] == items[..i];
      tracks := tracks + EntryFragments(items[i]);
    }
    assert items[..|items|] == items;
    PlayedLength(items);
    forall n | 0 <= n < |tracks|
      ensures tracks[n] == EntryFragments(items[n / 4])[n % 4]
    {
      PlayedAt(items, n / 4, n % 4);
    }
    return Ok(tracks);
  }
}
