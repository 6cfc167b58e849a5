/** The local music library adapter (lib/music_services/libraryDef.js):
    search terms, DIDL metadata, the first hit as a playable item, and the
    track list built from the hits of a library search. The index itself,
    its loading and its fuzzy search are in `LibraryIndex`. */
module Library {
  import opened Wrappers
  import opened Text
  import opened Catalog

  /** A track of the library index file, as `loadLibrary` writes it. */
  datatype IndexItem = IndexItem(
    artistTrackSearch: string,
    artistAlbumSearch: string,
    trackName: string,
    artistName: string,
    albumName: string,
    albumTrackNumber: Option<int>,
    uri: string,
    metadata: string)

  /** The default of `randomQueueLimit` when the settings give none. */
  const DefaultQueueLimit: int := 50

  /** `searchUrl`: the library has no endpoint; a type without an entry
      reads as `undefined`. */
  function SearchUrl(t: MusicType): (r: string)
    ensures r == "" <==> t == Album || t == Song || t == Station
    ensures r != "" ==> r == "undefined"
  {
    match t
    case Album => ""
    case Song => ""
    case Station => ""
    case _ => "undefined"
  }

  /** The parent container of each type. */
  function Parent(t: MusicType): string {
    match t
    case Album => "A:ALBUMARTIST/"
    case Song => "A:ALBUMARTIST/"
    case Station => ""
    case _ => "undefined"
  }

  /** The UPnP class of each type. */
  function ObjectClass(t: MusicType): string {
    match t
    case Album => "item.audioItem.musicTrack"
    case Song => "item.audioItem.musicTrack"
    case Station => ""
    case _ => "undefined"
  }

  const Token: string := "RINCON_AssociatedZPUDN"

  /** The fixed text of the library's DIDL template, which breaks lines and
      indents them by ten spaces. */
  const DidlOpen: string := "<DIDL-Lite xmlns:dc=\"http://purl.org/dc/elements/1.1/\" xmlns:upnp=\"urn:schemas-upnp-org:metadata-1-0/upnp/\"\n          xmlns:r=\"urn:schemas-rinconnetworks-com:metadata-1-0/\" xmlns=\"urn:schemas-upnp-org:metadata-1-0/DIDL-Lite/\">\n          <item id=\""
  const DidlClass: string := "\" restricted=\"true\"><dc:title></dc:title><upnp:class>object."
  const DidlDesc: string := "</upnp:class>\n          <desc id=\"cdudn\" nameSpace=\"urn:schemas-rinconnetworks-com:metadata-1-0/\">"
  const DidlClose: string := "</desc></item></DIDL-Lite>"

  /** What follows the item's id in the template: its parent (the type's
      parent prefix followed by `name`) and its class; the title is always
      left empty. */
  function MetadataTail(t: MusicType, name: string): string {
    "\" parentID=\"" + Parent(t) + name + DidlClass + ObjectClass(t) + DidlDesc + Token + DidlClose
  }

  /** `getMetadata`. */
  function GetMetadata(t: MusicType, id: string, name: string): (r: string)
    ensures StartsWith(r, DidlOpen + id)
  {
    DidlOpen + id + MetadataTail(t, name)
  }

  /** The middle of three joined strings. */
  lemma MiddleOf(a: string, b: string, c: string)
    ensures |a + b + c| >= |a| + |b| && (a + b + c)[|a|..|a| + |b|] == b
  {
  }

  /** The metadata carries the item's id at a fixed place, so different
      ids of one length give different metadata. */
  lemma MetadataNamesItem(t: MusicType, id1: string, id2: string, name: string)
    requires |id1| == |id2| && id1 != id2
    ensures GetMetadata(t, id1, name) != GetMetadata(t, id2, name)
  {
    MiddleOf(DidlOpen, id1, MetadataTail(t, name));
    MiddleOf(DidlOpen, id2, MetadataTail(t, name));
  }

  /** `getSearchTerm`: the artist, a space when there is an artist, then
      the album for an album search and the track otherwise. */
  function GetSearchTerm(t: MusicType, term: string, artist: string, album: string, track: string): string {
    var newTerm := artist;
    var spaced := if newTerm != "" && (artist != "" || track != "") then newTerm + " " else newTerm;
    spaced + (if t == Album then album else track)
  }

  /** The term is the artist and the wanted field joined by a space, or the
      field alone when there is no artist; the other field is ignored. */
  lemma SearchTermFields(t: MusicType, term: string, artist: string, album: string, track: string)
    ensures var field := if t == Album then album else track;
      GetSearchTerm(t, term, artist, album, track) == Join(if artist == "" then [field] else [artist, field], " ")
  {
    var field := if t == Album then album else track;
    if artist != "" {
      assert [artist, field][1..] == [field];
    }
  }

  /** `isEmpty`: no hits. */
  predicate IsEmpty(t: MusicType, hits: seq<IndexItem>) {
    |hits| == 0
  }

  /** What reading `resList[0].uri` throws when there is no hit. */
  const NoHit: string := "TypeError: Cannot read property 'uri' of undefined"

  /** `getURIandMetadata`: the first hit's URI and metadata. */
  function UriAndMetadata(t: MusicType, hits: seq<IndexItem>): (r: Result<UriMeta, string>)
    ensures r.Ok? ==> hits != [] && r.value.uri == hits[0].uri && r.value.metadata == hits[0].metadata
  {
    if hits == [] then Err(NoHit) else Ok(UriMeta(hits[0].uri, hits[0].metadata))
  }

  /** A playable item exists exactly when the hits are not empty. */
  lemma PlayableUnlessEmpty(t: MusicType, hits: seq<IndexItem>)
    ensures UriAndMetadata(t, hits).Ok? <==> !IsEmpty(t, hits)
    ensures UriAndMetadata(t, hits).Err? ==> UriAndMetadata(t, hits).error == NoHit
  {
  }

  // ---------------------------------------------------------------------
  // Picking the tracks
  // ---------------------------------------------------------------------

  /** Whether some item kept so far has the track name `name`. */
  predicate NameKept(kept: seq<IndexItem>, name: string) {
    exists k :: 0 <= k < |kept| && kept[k].trackName == name
  }

  lemma NameStillKept(kept: seq<IndexItem>, more: seq<IndexItem>, name: string)
    requires NameKept(kept, name)
    ensures NameKept(kept + more, name)
  {
    var k :| 0 <= k < |kept| && kept[k].trackName == name;
    assert (kept + more)[k] == kept[k];
  }

  /** Whether the reduce skips `item` against the items kept so far: a song
      whose name is already kept, or, for any other type, an item from
      another album than the first hit's. */
  predicate Skipped(t: MusicType, album: string, item: IndexItem, kept: seq<IndexItem>) {
    if t == Song then NameKept(kept, item.trackName)
    else item.albumName != album
  }

  /** The items the reduce keeps, in order: while fewer than `limit` are
      kept, each one that is not skipped. */
  function Picked(t: MusicType, album: string, limit: int, items: seq<IndexItem>): (r: seq<IndexItem>)
    ensures |r| <= |items| && |r| <= (if limit > 0 then limit else 0)
    ensures forall x :: x in r ==> x in items
    decreases |items|
  {
    if items == [] then []
    else
      var prev := Picked(t, album, limit, items[..|items| - 1]);
      var item := items[|items| - 1];
      if |prev| < limit && !Skipped(t, album, item, prev) then prev + [item] else prev
  }

  /** Unfolds one step of `Picked`. */
  lemma PickedLast(t: MusicType, album: string, limit: int, items: seq<IndexItem>)
    requires items != []
    ensures var prev := Picked(t, album, limit, items[..|items| - 1]);
      var item := items[|items| - 1];
      Picked(t, album, limit, items) == if |prev| < limit && !Skipped(t, album, item, prev) then prev + [item] else prev
  {
  }

  /** A song search never queues the same name twice. */
  lemma {:induction false} PickedSongsDistinct(album: string, limit: int, items: seq<IndexItem>)
    ensures var r := Picked(Song, album, limit, items);
      forall i, j :: 0 <= i < j < |r| ==> r[i].trackName != r[j].trackName
    decreases |items|
  {
    if items != [] {
      var prev := Picked(Song, album, limit, items[..|items| - 1]);
      PickedSongsDistinct(album, limit, items[..|items| - 1]);
      PickedLast(Song, album, limit, items);
      var item := items[|items| - 1];
      if |prev| < limit && !Skipped(Song, album, item, prev) {
        var r := prev + [item];
        forall i, j | 0 <= i < j < |r| ensures r[i].trackName != r[j].trackName {
          if j == |prev| {
            assert r[i] == prev[i];
          } else {
            assert r[i] == prev[i] && r[j] == prev[j];
          }
        }
      }
    }
  }

  /** Any other search queues only tracks of the first hit's album. */
  lemma {:induction false} PickedSameAlbum(t: MusicType, album: string, limit: int, items: seq<IndexItem>)
    requires t != Song
    ensures forall x :: x in Picked(t, album, limit, items) ==> x.albumName == album
    decreases |items|
  {
    if items != [] {
      PickedSameAlbum(t, album, limit, items[..|items| - 1]);
      PickedLast(t, album, limit, items);
    }
  }

  /** Below the limit nothing is lost: every hit of the album is queued. */
  lemma {:induction false} PickedAllOfAlbum(t: MusicType, album: string, limit: int, items: seq<IndexItem>)
    requires t != Song && |items| <= limit
    ensures forall x :: x in items && x.albumName == album ==> x in Picked(t, album, limit, items)
    decreases |items|
  {
    if items != [] {
      var init := items[..|items| - 1];
      PickedAllOfAlbum(t, album, limit, init);
      PickedLast(t, album, limit, items);
      assert items == init + [items[|items| - 1]];
    }
  }

  /** Below the limit a song search queues every name it found. */
  lemma {:induction false} PickedAllNames(album: string, limit: int, items: seq<IndexItem>)
    requires |items| <= limit
    ensures forall x :: x in items ==> NameKept(Picked(Song, album, limit, items), x.trackName)
    decreases |items|
  {
    if items != [] {
      var init := items[..|items| - 1];
      var prev := Picked(Song, album, limit, init);
      var item := items[|items| - 1];
      PickedAllNames(album, limit, init);
      PickedLast(Song, album, limit, items);
      assert items == init + [item];
      var r := Picked(Song, album, limit, items);
      if r != prev {
        assert r == prev + [item];
        forall x | x in init ensures NameKept(r, x.trackName) {
          NameStillKept(prev, [item], x.trackName);
        }
        assert r[|prev|] == item;
      }
    }
  }

  /** The track pushed for a kept item. */
  function ToTrack(item: IndexItem): (r: Track)
    ensures r.trackName == item.trackName && r.artistName == item.artistName && r.uri == item.uri
  {
    Track(item.trackName, item.artistName, item.albumTrackNumber, item.uri, item.metadata)
  }

  function ToTracks(items: seq<IndexItem>): (r: seq<Track>)
    ensures |r| == |items| && forall i :: 0 <= i < |items| ==> r[i] == ToTrack(items[i])
  {
    seq(|items|, i requires 0 <= i < |items| => ToTrack(items[i]))
  }

  // ---------------------------------------------------------------------
  // The album order
  // ---------------------------------------------------------------------

  /** The comparator of the album sort: by artist name, then by track
      number. A missing number makes the difference `NaN`, which the sort
      treats like 0. */
  function Order(a: Track, b: Track): int {
    if a.artistName != b.artistName then (if StrLess(b.artistName, a.artistName) then 1 else -1)
    else if a.albumTrackNumber.Some? && b.albumTrackNumber.Some? then
      a.albumTrackNumber.value - b.albumTrackNumber.value
    else 0
  }

  /** The comparator is antisymmetric. */
  lemma OrderAntisymmetric(a: Track, b: Track)
    ensures Order(b, a) == -Order(a, b)
  {
    if a.artistName != b.artistName {
      if StrLess(b.artistName, a.artistName) {
        StrLessAsymmetric(b.artistName, a.artistName);
      } else {
        StrLessTotal(a.artistName, b.artistName);
      }
    }
  }

  /** `a` may come before `b` when the artist comes first, or for the same
      artist when the number does not exceed `b`'s. */
  lemma OrderAtMostZero(a: Track, b: Track)
    requires a.albumTrackNumber.Some? && b.albumTrackNumber.Some?
    ensures Order(a, b) <= 0 <==>
      (a.artistName != b.artistName && StrLess(a.artistName, b.artistName))
      || (a.artistName == b.artistName && a.albumTrackNumber.value <= b.albumTrackNumber.value)
  {
    if a.artistName != b.artistName {
      if StrLess(b.artistName, a.artistName) {
        StrLessAsymmetric(b.artistName, a.artistName);
      } else {
        StrLessTotal(a.artistName, b.artistName);
      }
    }
  }

  /** With every track numbered, the comparator is transitive. */
  lemma OrderTransitive(a: Track, b: Track, c: Track)
    requires a.albumTrackNumber.Some? && b.albumTrackNumber.Some? && c.albumTrackNumber.Some?
    requires Order(a, b) <= 0 && Order(b, c) <= 0
    ensures Order(a, c) <= 0
  {
    OrderAtMostZero(a, b);
    OrderAtMostZero(b, c);
    OrderAtMostZero(a, c);
    if a.artistName != b.artistName && b.artistName != c.artistName {
      StrLessTransitive(a.artistName, b.artistName, c.artistName);
      if a.artistName == c.artistName {
        StrLessIrreflexive(a.artistName);
      }
    }
  }

  predicate Numbered(s: seq<Track>) {
    forall i :: 0 <= i < |s| ==> s[i].albumTrackNumber.Some?
  }

  /** Every track may come before every later one. */
  predicate Ordered(s: seq<Track>) {
    forall i, j :: 0 <= i < j < |s| ==> Order(s[i], s[j]) <= 0
  }

  /** `x` placed before the first track the comparator puts after it, so
      that tracks comparing equal keep their order. */
  function InsertByOrder(x: Track, s: seq<Track>): (r: seq<Track>)
    ensures |r| == |s| + 1 && multiset(r) == multiset(s) + multiset{x}
  {
    if s == [] then [x]
    else if Order(x, s[0]) < 0 then [x] + s
    else
      assert s == [s[0]] + s[1..];
      [s[0]] + InsertByOrder(x, s[1..])
  }

  /** The stable sort of `s` by the album comparator. */
  function SortByOrder(s: seq<Track>): (r: seq<Track>)
    ensures |r| == |s| && multiset(r) == multiset(s)
  {
    if s == [] then []
    else
      assert s == s[..|s| - 1] + [s[|s| - 1]];
      InsertByOrder(s[|s| - 1], SortByOrder(s[..|s| - 1]))
  }

  /** `y` may come before every track of `s`. */
  predicate BeforeAll(y: Track, s: seq<Track>) {
    forall j :: 0 <= j < |s| ==> Order(y, s[j]) <= 0
  }

  lemma OrderedCons(y: Track, t: seq<Track>)
    ensures Ordered([y] + t) <==> BeforeAll(y, t) && Ordered(t)
  {
    var r := [y] + t;
    if BeforeAll(y, t) && Ordered(t) {
      forall i, j | 0 <= i < j < |r| ensures Order(r[i], r[j]) <= 0 {
        assert r[j] == t[j - 1];
        if i == 0 {
          assert r[i] == y;
        } else {
          assert r[i] == t[i - 1];
        }
      }
    }
    if Ordered(r) {
      forall j | 0 <= j < |t| ensures Order(y, t[j]) <= 0 {
        assert r[0] == y && r[j + 1] == t[j];
        assert Order(r[0], r[j + 1]) <= 0;
      }
      forall i, j | 0 <= i < j < |t| ensures Order(t[i], t[j]) <= 0 {
        assert r[i + 1] == t[i] && r[j + 1] == t[j];
      }
    }
  }

  /** What may come before `x` and every track of `s` may come before
      every track of `s` with `x` inserted. */
  lemma InsertBefore(y: Track, x: Track, s: seq<Track>)
    requires Order(y, x) <= 0 && BeforeAll(y, s)
    ensures BeforeAll(y, InsertByOrder(x, s))
  {
    var r := InsertByOrder(x, s);
    forall j | 0 <= j < |r| ensures Order(y, r[j]) <= 0 {
      assert r[j] in multiset(r);
      if r[j] != x {
        assert r[j] in multiset(s);
        var k :| 0 <= k < |s| && s[k] == r[j];
      }
    }
  }

  lemma {:induction false} InsertKeepsOrder(x: Track, s: seq<Track>)
    requires x.albumTrackNumber.Some? && Numbered(s) && Ordered(s)
    ensures Ordered(InsertByOrder(x, s))
    decreases |s|
  {
    if s == [] {
    } else {
      assert s == [s[0]] + s[1..];
      OrderedCons(s[0], s[1..]);
      if Order(x, s[0]) < 0 {
        forall j | 0 <= j < |s| ensures Order(x, s[j]) <= 0 {
          if j > 0 {
            OrderTransitive(x, s[0], s[j]);
          }
        }
        OrderedCons(x, s);
      } else {
        InsertKeepsOrder(x, s[1..]);
        OrderAntisymmetric(x, s[0]);
        InsertBefore(s[0], x, s[1..]);
        OrderedCons(s[0], InsertByOrder(x, s[1..]));
      }
    }
  }

  /** With every track numbered, the album sort orders the tracks by artist
      and then by number. */
  lemma {:induction false} SortOrdered(s: seq<Track>)
    requires Numbered(s)
    ensures Ordered(SortByOrder(s))
    decreases |s|
  {
    if s != [] {
      var init := s[..|s| - 1];
      assert Numbered(init) by {
        forall i | 0 <= i < |init| ensures init[i].albumTrackNumber.Some? {
          assert init[i] == s[i];
        }
      }
      SortOrdered(init);
      var sorted := SortByOrder(init);
      assert Numbered(sorted) by {
        forall i | 0 <= i < |sorted| ensures sorted[i].albumTrackNumber.Some? {
          assert sorted[i] in multiset(init);
          var k :| 0 <= k < |init| && init[k] == sorted[i];
        }
      }
      InsertKeepsOrder(s[|s| - 1], sorted);
    }
  }

  // ---------------------------------------------------------------------
  // loadTracks
  // ---------------------------------------------------------------------

  /** The album every kept item must share: the first hit's. */
  function FirstAlbum(hits: seq<IndexItem>): string {
    if hits == [] then "" else hits[0].albumName
  }

  /** The track list `loadTracks` returns: the picked tracks, sorted by
      the album order for an album search. */
  function TrackList(t: MusicType, limit: int, hits: seq<IndexItem>): (r: Catalog.TrackList)
    ensures !r.isArtist
    ensures multiset(r.queueTracks) == multiset(ToTracks(Picked(t, FirstAlbum(hits), limit, hits)))
    ensures t != Album ==> r.queueTracks == ToTracks(Picked(t, FirstAlbum(hits), limit, hits))
  {
    var kept := ToTracks(Picked(t, FirstAlbum(hits), limit, hits));
    TrackSet(|kept|, false, if t == Album then SortByOrder(kept) else kept)
  }

  /** An album's numbered tracks are queued in album order. */
  lemma AlbumInOrder(limit: int, hits: seq<IndexItem>)
    requires forall x :: x in hits ==> x.albumTrackNumber.Some?
    ensures Ordered(TrackList(Album, limit, hits).queueTracks)
  {
    var picked := Picked(Album, FirstAlbum(hits), limit, hits);
    var kept := ToTracks(picked);
    assert Numbered(kept) by {
      forall i | 0 <= i < |kept| ensures kept[i].albumTrackNumber.Some? {
        assert picked[i] in picked;
      }
    }
    SortOrdered(kept);
  }

  /** The inner loop of `loadTracks`: scans the tracks kept so far for one
      with the same name. */
  method NameTaken(name: string, kept: seq<Track>, ghost keptItems: seq<IndexItem>) returns (skip: bool)
    requires kept == ToTracks(keptItems)
    ensures skip <==> NameKept(keptItems, name)
  {
    skip := false;
    var j := 0;
    while j < |kept| && !skip
      invariant 0 <= j <= |kept|
      invariant skip <==> exists k :: 0 <= k < j && keptItems[k].trackName == name
    {
      assert kept[j].trackName == keptItems[j].trackName;
      skip := name == kept[j].trackName;
      j := j + 1;
    }
    assert skip ==> NameKept(keptItems, name);
  }

  /** One more hit read by the reduce. */
  lemma PickedPrefix(t: MusicType, album: string, limit: int, hits: seq<IndexItem>, i: nat)
    requires i < |hits|
    ensures var prev := Picked(t, album, limit, hits[..i]);
      Picked(t, album, limit, hits[..i + 1])
        == if |prev| < limit && !Skipped(t, album, hits[i], prev) then prev + [hits[i]] else prev
  {
    assert hits[..i + 1][..i] == hits[..i];
    PickedLast(t, album, limit, hits[..i + 1]);
  }

  lemma ToTracksAppend(items: seq<IndexItem>, item: IndexItem)
    ensures ToTracks(items + [item]) == ToTracks(items) + [ToTrack(item)]
  {
  }

  /** The reduce of `loadTracks` over the hits, with its inner loop. */
  method PickTracks(t: MusicType, limit: int, hits: seq<IndexItem>) returns (kept: seq<Track>, count: int)
    ensures kept == ToTracks(Picked(t, FirstAlbum(hits), limit, hits)) && count == |kept|
  {
    kept := [];
    ghost var keptItems: seq<IndexItem> := [];
    count := 0;
    var album := FirstAlbum(hits);
    var i := 0;
    while i < |hits|
      invariant 0 <= i <= |hits|
      invariant keptItems == Picked(t, album, limit, hits[..i])
      invariant kept == ToTracks(keptItems) && count == |kept|
    {
      var item := hits[i];
      PickedPrefix(t, album, limit, hits, i);
      assert |keptItems| == count;
      if count < limit {
        var skip: bool;
        if t == Song {
          skip := NameTaken(item.trackName, kept, keptItems);
        } else {
          skip := item.albumName != album;
        }
        assert skip == Skipped(t, album, item, keptItems);
        if !skip {
          ToTracksAppend(keptItems, item);
          kept := kept + [ToTrack(item)];
          keptItems := keptItems + [item];
          count := count + 1;
        }
      }
      i := i + 1;
    }
    assert hits[..i] == hits;
  }

  /** `loadTracks`: the reduce over the hits, then the album sort. */
  method LoadTracks(t: MusicType, limit: int, hits: seq<IndexItem>) returns (tracks: Catalog.TrackList)
    ensures tracks == TrackList(t, limit, hits)
  {
    var kept, count := PickTracks(t, limit, hits);
    if t == Album {
      kept := SortByOrder(kept);
    }
    tracks := TrackSet(count, false, kept);
  }

  /** The library as a catalog adapter, with the queue limit from the
      settings. */
  function Adapter(limit: int): (r: Catalog.Adapter<seq<IndexItem>>)
    ensures r.countrySuffix == ""
  {
    Catalog.Adapter(
      "",
      SearchUrl,
      GetSearchTerm,
      (ctx: ServiceContext, t: MusicType, hits: seq<IndexItem>) => TrackList(t, limit, hits),
      IsEmpty,
      (ctx: ServiceContext, t: MusicType, hits: seq<IndexItem>) => UriAndMetadata(t, hits))
  }
}
