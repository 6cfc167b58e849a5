/** The Spotify adapter (lib/music_services/spotifyDef.js): search URLs,
    the search term it builds from tagged fields, the Sonos URI and DIDL-Lite
    metadata templates, the filtered track list, and the client-credentials
    token it keeps between requests.

    The module variables `sid`, `serviceType`, `accountSN` and `country`
    that `setService` binds are a `ServiceContext` for the pure parts, and
    fields of `Session` for the stateful ones. A catalog reply is a
    `Reply`: the item lists of the search answer. */
module Spotify {
  import opened Wrappers
  import opened Text
  import opened Catalog

  // ---------------------------------------------------------------------
  // Constants
  // ---------------------------------------------------------------------

  const CountrySuffix: string := "&market="

  /** The search endpoint of each type; `load` has none, and its URL starts
      with the text `undefined`. */
  function SearchUrl(t: MusicType): (r: string)
    ensures t != Load ==> StartsWith(r, "https://api.spotify.com/v1/search?type=")
    ensures t == Load ==> r == "undefined"
  {
    match t
    case Album => "https://api.spotify.com/v1/search?type=album&limit=1&q="
    case Song => "https://api.spotify.com/v1/search?type=track&limit=50&q="
    case Station => "https://api.spotify.com/v1/search?type=artist&limit=1&q="
    case Playlist => "https://api.spotify.com/v1/search?type=playlist&q="
    case Load => "undefined"
  }

  /** The prefix of an item id in the metadata. */
  function Metastart(t: MusicType): string {
    match t
    case Album => "1004206cspotify%3aalbum%3a"
    case Song => "00032020spotify%3atrack%3a"
    case Station => "000c206cspotify:artistRadio%3a"
    case Playlist => "0004206cspotify%3aplaylist%3a"
    case Load => "undefined"
  }

  /** The prefix of an item's parent id. */
  function Parent(t: MusicType): string {
    match t
    case Album => "00020000album:"
    case Song => "00020000track:"
    case Station => "00052064spotify%3aartist%3a"
    case Playlist => "00020000playlist:"
    case Load => "undefined"
  }

  /** The parent-id prefix of an artist's collection. */
  const CollectionParent: string := "10052064spotify%3aartist%3a"

  /** The UPnP class of each type. */
  function ObjectClass(t: MusicType): string {
    match t
    case Album => "container.album.musicAlbum"
    case Song => "item.audioItem.musicTrack"
    case Station => "item.audioItem.audioBroadcast.#artistRadio"
    case Playlist => "container.playlistContainer"
    case Load => "undefined"
  }

  // ---------------------------------------------------------------------
  // Replies
  // ---------------------------------------------------------------------

  datatype ArtistRef = ArtistRef(id: string, name: string)

  /** An album, artist or playlist of a search answer; `compilation` holds
      when its `album_type` is `compilation`. */
  datatype Entry = Entry(id: string, name: string, uri: string, compilation: bool, artists: seq<ArtistRef>)

  /** A track of a search answer; `markets` is absent when the answer has
      no `available_markets`. */
  datatype TrackEntry = TrackEntry(id: string, name: string, markets: Option<seq<string>>, artists: seq<ArtistRef>)

  datatype Reply = Reply(albums: seq<Entry>, artists: seq<Entry>, playlists: seq<Entry>, tracks: seq<TrackEntry>)

  /** What reading a field of a missing first item throws. */
  const NoItem: string := "TypeError: Cannot read property 'id' of undefined"

  // ---------------------------------------------------------------------
  // Search term
  // ---------------------------------------------------------------------

  /** The field, tagged, when it is not empty. */
  function TagIf(tag: string, value: string): seq<string> {
    if value != "" then [tag + value] else []
  }

  /** The non-empty fields, tagged, in the order album, artist, track. */
  function Tagged(artist: string, album: string, track: string): seq<string> {
    TagIf("album:", album) + TagIf("artist:", artist) + TagIf("track:", track)
  }

  /** One step of building `newTerm`: a non-empty field is appended,
      tagged, after a space when the term so far is not empty. */
  function AddField(acc: string, tag: string, value: string): string {
    if value != "" then acc + (if acc != "" then " " else "") + tag + value else acc
  }

  /** `newTerm` before encoding, built one field at a time. */
  function Query(artist: string, album: string, track: string): string {
    AddField(AddField(AddField("", "album:", album), "artist:", artist), "track:", track)
  }

  /** `getSearchTerm`: the query, percent-encoded. The type and the raw
      term are not used. */
  function GetSearchTerm(t: MusicType, term: string, artist: string, album: string, track: string): (r: string)
    ensures PercentDecode(r) == Ok(Query(artist, album, track))
  {
    DecodeEncode(Query(artist, album, track));
    PercentEncode(Query(artist, album, track))
  }

  /** One step of the query keeps it the join of the fields tagged so far. */
  lemma AddFieldJoins(parts: seq<string>, acc: string, tag: string, value: string)
    requires Join(parts, " ") == acc && (acc == "" <==> parts == [])
    requires tag != ""
    ensures Join(parts + TagIf(tag, value), " ") == AddField(acc, tag, value)
    ensures AddField(acc, tag, value) == "" <==> parts + TagIf(tag, value) == []
  {
    if value != "" {
      JoinSnoc(parts, tag + value, " ");
      assert AddField(acc, tag, value) == acc + (if acc != "" then " " else "") + (tag + value);
    } else {
      assert parts + TagIf(tag, value) == parts;
    }
  }

  /** The query is the tagged fields joined by single spaces. */
  lemma QueryJoinsFields(artist: string, album: string, track: string)
    ensures Query(artist, album, track) == Join(Tagged(artist, album, track), " ")
  {
    var p0 := TagIf("album:", album);
    var p1 := p0 + TagIf("artist:", artist);
    AddFieldJoins([], "", "album:", album);
    assert [] + p0 == p0;
    AddFieldJoins(p0, AddField("", "album:", album), "artist:", artist);
    AddFieldJoins(p1, AddField(AddField("", "album:", album), "artist:", artist), "track:", track);
  }

  /** Spotify receives exactly the joined fields once it decodes the term. */
  lemma SearchTermDecodes(t: MusicType, term: string, artist: string, album: string, track: string)
    ensures PercentDecode(GetSearchTerm(t, term, artist, album, track)) == Ok(Join(Tagged(artist, album, track), " "))
  {
    DecodeEncode(Query(artist, album, track));
    QueryJoinsFields(artist, album, track);
  }

  // ---------------------------------------------------------------------
  // URIs and metadata
  // ---------------------------------------------------------------------

  /** The fixed text of each type's URI before the id. */
  function UriPrefix(t: MusicType): string {
    match t
    case Album => "x-rincon-cpcontainer:1004206c"
    case Song => "x-sonos-spotify:spotify%3atrack%3a"
    case Station => "x-sonosapi-radio:spotify%3aartistRadio%3a"
    case Playlist => "x-rincon-cpcontainer:0006206c"
    case Load => ""
  }

  /** The text of each type's URI after the id: the service id, flags
      and account serial number, except for a playlist. */
  function UriTail(ctx: ServiceContext, t: MusicType): string {
    match t
    case Album => "?sid=" + ctx.sid + "&flags=8300&sn=" + ctx.accountSN
    case Song => "?sid=" + ctx.sid + "&flags=8224&sn=" + ctx.accountSN
    case Station => "?sid=" + ctx.sid + "&flags=8300&sn=" + ctx.accountSN
    case _ => ""
  }

  /** `getURI`: nothing for a type without a template. */
  function GetUri(ctx: ServiceContext, t: MusicType, id: string): (r: Option<string>)
    ensures r.Some? <==> t != Load
    ensures r.Some? ==> StartsWith(r.value, UriPrefix(t) + id)
  {
    if t == Load then None else Some(UriPrefix(t) + (id + UriTail(ctx, t)))
  }

  /** Two strings without '?', each followed by text starting with '?',
      are equal when the results are. */
  lemma ShorterHasNoQuestionMark(a: string, b: string, x: string, y: string)
    requires '?' !in b && x != [] && x[0] == '?'
    requires a + x == b + y
    ensures |b| <= |a|
  {
    var i := if |a| < |b| then |a| else 0;
    assert (a + x)[i] == (b + y)[i];
  }

  lemma CutAtQuestionMark(a: string, b: string, x: string, y: string)
    requires '?' !in a && '?' !in b && x != [] && y != [] && x[0] == '?' && y[0] == '?'
    requires a + x == b + y
    ensures a == b
  {
    ShorterHasNoQuestionMark(a, b, x, y);
    ShorterHasNoQuestionMark(b, a, y, x);
    assert a == (a + x)[..|a|];
    assert b == (b + y)[..|b|];
  }

  /** Different ids get different URIs, as long as an id holds no '?'
      (an encoded id never does). */
  lemma UriInjective(ctx: ServiceContext, t: MusicType, a: string, b: string)
    requires t != Load && '?' !in a && '?' !in b
    requires GetUri(ctx, t, a) == GetUri(ctx, t, b)
    ensures a == b
  {
    var tail := UriTail(ctx, t);
    CancelPrefix(UriPrefix(t), a + tail, b + tail);
    if tail == "" {
      assert a == a + tail && b == b + tail;
    } else {
      assert tail[0] == '?';
      CutAtQuestionMark(a, b, tail, tail);
    }
  }

  lemma CancelPrefix(p: string, x: string, y: string)
    requires p + x == p + y
    ensures x == y
  {
    assert x == (p + x)[|p|..];
    assert y == (p + y)[|p|..];
  }

  /** `getServiceToken`. */
  function ServiceToken(ctx: ServiceContext): string {
    "SA_RINCON" + ctx.serviceType + "_X_#Svc" + ctx.serviceType + "-0-Token"
  }

  /** The fixed parts of the DIDL-Lite template. */
  const DidlOpen: string := "<DIDL-Lite xmlns:dc=\"http://purl.org/dc/elements/1.1/\" xmlns:upnp=\"urn:schemas-upnp-org:metadata-1-0/upnp/\" xmlns:r=\"urn:schemas-rinconnetworks-com:metadata-1-0/\" xmlns=\"urn:schemas-upnp-org:metadata-1-0/DIDL-Lite/\"><item id=\""
  const DidlDesc: string := "</upnp:class><desc id=\"cdudn\" nameSpace=\"urn:schemas-rinconnetworks-com:metadata-1-0/\">"
  const DidlClose: string := "</desc></item></DIDL-Lite>"

  /** `getMetadata`: an empty `parentUri` means the type's parent prefix
      followed by `name`; only a station shows its title. */
  function GetMetadata(ctx: ServiceContext, t: MusicType, id: string, name: string, title: string,
                       parentUri: string): string {
    var parent := if parentUri != "" then parentUri else Parent(t) + name;
    var shownTitle := if t == Station then title else "";
    DidlOpen + id + "\" parentID=\"" + parent + "\" restricted=\"true\"><dc:title>" + shownTitle
      + "</dc:title><upnp:class>object." + ObjectClass(t) + DidlDesc + ServiceToken(ctx) + DidlClose
  }

  /** Outside stations the title does not reach the metadata. */
  lemma MetadataHidesTitle(ctx: ServiceContext, t: MusicType, id: string, name: string, a: string, b: string,
                           parentUri: string)
    requires t != Station
    ensures GetMetadata(ctx, t, id, name, a, parentUri) == GetMetadata(ctx, t, id, name, b, parentUri)
  {
  }

  /** The items of the list a type reads. */
  function ItemsOf(t: MusicType, reply: Reply): seq<Entry> {
    match t
    case Album => reply.albums
    case Station => reply.artists
    case Playlist => reply.playlists
    case _ => []
  }

  /** The parent id of the first item: the type's prefix and its name, or,
      for a compilation album, `compilationParent` and its first artist's
      id (a TypeError when it has no artist). */
  function ParentUri(t: MusicType, item: Entry, name: string, compilationParent: string): (r: Result<string, string>)
    ensures !(t == Album && item.compilation) ==> r == Ok(Parent(t) + name)
    ensures t == Album && item.compilation ==>
      (item.artists == [] ==> r.Err?) && (item.artists != [] ==> r == Ok(compilationParent + item.artists[0].id))
  {
    if t == Album && item.compilation then
      if item.artists == [] then Err(NoItem) else Ok(compilationParent + item.artists[0].id)
    else Ok(Parent(t) + name)
  }

  /** `getURIandMetadata`, with the parent prefix of compilations given. */
  function UriAndMetadataWith(ctx: ServiceContext, t: MusicType, reply: Reply, compilationParent: string): (r: Result<UriMeta, string>)
    ensures ItemsOf(t, reply) == [] ==> r == Err(NoItem)
    ensures r.Ok? ==> t != Song && t != Load
  {
    var items := ItemsOf(t, reply);
    if items == [] then Err(NoItem)
    else
      assert t != Song && t != Load;
      var item := items[0];
      var title := item.name + (if t == Station then " Radio" else "");
      var metadataId := Metastart(t) + PercentEncode(item.id);
      var name := if t == Album || t == Playlist then Lower(title) else item.id;
      match ParentUri(t, item, name, compilationParent)
      case Err(e) => Err(e)
      case Ok(parent) =>
        var uri := GetUri(ctx, t, PercentEncode(if t == Station then item.id else item.uri));
        Ok(UriMeta(uri.GetOr(""), GetMetadata(ctx, t, metadataId, name, title, parent)))
  }

  /** `getURIandMetadata` as written: the compilation branch reads
      `parent.compilation`, a key the parent table does not have, so the
      prefix is the text `undefined`. */
  function UriAndMetadataAsWritten(ctx: ServiceContext, t: MusicType, reply: Reply): (r: Result<UriMeta, string>)
    ensures ItemsOf(t, reply) == [] ==> r == Err(NoItem)
  {
    UriAndMetadataWith(ctx, t, reply, "undefined")
  }

  /** `getURIandMetadata` with the collection prefix the table defines. */
  function UriAndMetadata(ctx: ServiceContext, t: MusicType, reply: Reply): (r: Result<UriMeta, string>)
    ensures ItemsOf(t, reply) == [] ==> r == Err(NoItem)
  {
    UriAndMetadataWith(ctx, t, reply, CollectionParent)
  }

  /** A playable item is found for every station, album and playlist
      answer that has an item, unless it is a compilation without artists;
      its URI is the type's template around the encoded id (a station) or
      the encoded URI (an album or playlist). */
  lemma FirstItemPlayable(ctx: ServiceContext, t: MusicType, reply: Reply)
    requires t == Station || t == Album || t == Playlist
    requires ItemsOf(t, reply) != []
    requires var item := ItemsOf(t, reply)[0]; !(t == Album && item.compilation && item.artists == [])
    ensures var item := ItemsOf(t, reply)[0];
      var r := UriAndMetadata(ctx, t, reply);
      r.Ok? && r.value.uri == GetUri(ctx, t, PercentEncode(if t == Station then item.id else item.uri)).value
  {
    var item := ItemsOf(t, reply)[0];
    var title := item.name + (if t == Station then " Radio" else "");
    var name := if t == Album || t == Playlist then Lower(title) else item.id;
    assert ParentUri(t, item, name, CollectionParent).Ok?;
  }

  /** The finding: as written, a compilation album's parent id is
      `undefined` followed by the artist id, where the collection prefix
      was meant; nothing else differs. */
  lemma CompilationParentAsWritten(t: MusicType, item: Entry, name: string)
    requires t == Album && item.compilation && item.artists != []
    ensures ParentUri(t, item, name, "undefined") == Ok("undefined" + item.artists[0].id)
    ensures !StartsWith(ParentUri(t, item, name, "undefined").value, CollectionParent)
  {
    assert ("undefined" + item.artists[0].id)[0] == 'u';
  }

  /** Corrected, a compilation album's parent id is its first artist's
      collection. */
  lemma CompilationParentCorrected(t: MusicType, item: Entry, name: string)
    requires t == Album && item.compilation && item.artists != []
    ensures var p := ParentUri(t, item, name, CollectionParent);
      p.Ok? && StartsWith(p.value, CollectionParent) && p.value[|CollectionParent|..] == item.artists[0].id
  {
  }

  /** The two versions agree on everything but compilation albums. */
  lemma OnlyCompilationsDiffer(ctx: ServiceContext, t: MusicType, reply: Reply)
    requires !(t == Album && reply.albums != [] && reply.albums[0].compilation)
    ensures UriAndMetadataAsWritten(ctx, t, reply) == UriAndMetadata(ctx, t, reply)
  {
  }

  // ---------------------------------------------------------------------
  // Tracks
  // ---------------------------------------------------------------------

  /** A track plays in `country` when it lists no markets or lists that one. */
  predicate Available(item: TrackEntry, country: string) {
    item.markets.None? || item.markets.value == [] || country in item.markets.value
  }

  /** The skip test of the inner loop, against the items kept so far: one
      of them has the same name, or the name holds `karaoke` and at least
      one item is kept. */
  predicate Skip(name: string, kept: seq<TrackEntry>) {
    exists k :: 0 <= k < |kept| && (name == kept[k].name || Contains(name, "karaoke"))
  }

  /** The items whose tracks are kept, in order. */
  function KeptItems(country: string, items: seq<TrackEntry>): seq<TrackEntry>
    decreases |items|
  {
    if items == [] then []
    else
      var prev := KeptItems(country, items[..|items| - 1]);
      var item := items[|items| - 1];
      if Available(item, country) && !Skip(item.name, prev) then prev + [item] else prev
  }

  /** The track pushed for an item. */
  function TrackOf(ctx: ServiceContext, item: TrackEntry): (r: Track)
    ensures r.trackName == item.name && r.albumTrackNumber == None
    ensures |item.artists| > 0 ==> r.artistName == item.artists[0].name
    ensures item.artists == [] ==> r.artistName == ""
    ensures Some(r.uri) == GetUri(ctx, Song, PercentEncode(item.id))
  {
    var id := PercentEncode(item.id);
    Track(item.name, if |item.artists| > 0 then item.artists[0].name else "", None,
          GetUri(ctx, Song, id).value, GetMetadata(ctx, Song, Metastart(Song) + id, item.id, item.name, ""))
  }

  /** Tracks with different ids are queued under different URIs: the
      encoded id holds no '?', so the song URI determines it, and the
      encoding is undone by decoding. */
  lemma DistinctIdsDistinctUris(ctx: ServiceContext, a: TrackEntry, b: TrackEntry)
    requires a.id != b.id
    ensures TrackOf(ctx, a).uri != TrackOf(ctx, b).uri
  {
    var ea, eb := PercentEncode(a.id), PercentEncode(b.id);
    EncodedChars(a.id);
    EncodedChars(b.id);
    if TrackOf(ctx, a).uri == TrackOf(ctx, b).uri {
      UriInjective(ctx, Song, ea, eb);
      DecodeEncode(a.id);
      DecodeEncode(b.id);
      assert false;
    }
  }

  /** The tracks of `items`, in order. */
  function TracksOf(ctx: ServiceContext, items: seq<TrackEntry>): (r: seq<Track>)
    ensures |r| == |items| && forall i :: 0 <= i < |items| ==> r[i] == TrackOf(ctx, items[i])
  {
    seq(|items|, i requires 0 <= i < |items| => TrackOf(ctx, items[i]))
  }

  /** The track list `loadTracks` returns, with one count per kept track. */
  function TrackList(ctx: ServiceContext, reply: Reply): (r: Catalog.TrackList)
    ensures r.queueTracks == TracksOf(ctx, KeptItems(ctx.country, reply.tracks)) && !r.isArtist
  {
    var kept := TracksOf(ctx, KeptItems(ctx.country, reply.tracks));
    TrackSet(|kept|, false, kept)
  }

  /** The inner loop of `loadTracks`: scans the tracks kept so far and
      stops at the first that makes the item skipped. */
  method SkipScan(name: string, kept: seq<Track>, ghost keptItems: seq<TrackEntry>) returns (skip: bool)
    requires |kept| == |keptItems|
    requires forall k :: 0 <= k < |kept| ==> kept[k].trackName == keptItems[k].name
    ensures skip == Skip(name, keptItems)
  {
    skip := false;
    var j := 0;
    while j < |kept| && !skip
      invariant 0 <= j <= |kept|
      invariant skip <==> exists k :: 0 <= k < j && (name == keptItems[k].name || Contains(name, "karaoke"))
    {
      assert kept[j].trackName == keptItems[j].name;
      skip := name == kept[j].trackName || Contains(name, "karaoke");
      j := j + 1;
    }
    if skip {
      ghost var k :| 0 <= k < j && (name == keptItems[k].name || Contains(name, "karaoke"));
      assert k < |keptItems|;
    }
  }

  /** `loadTracks`: the reduce over the answer's tracks, with its inner
      skip loop over the tracks kept so far. */
  method LoadTracks(ctx: ServiceContext, reply: Reply) returns (tracks: Catalog.TrackList)
    ensures tracks == TrackList(ctx, reply)
  {
    var kept: seq<Track> := [];
    ghost var keptItems: seq<TrackEntry> := [];
    var count := 0;
    var items := reply.tracks;
    if |items| > 0 {
      var i := 0;
      while i < |items|
        invariant 0 <= i <= |items|
        invariant keptItems == KeptItems(ctx.country, items[..i])
        invariant kept == TracksOf(ctx, keptItems) && count == |kept|
      {
        var item := items[i];
        KeptPrefix(ctx.country, items, i);
        if Available(item, ctx.country) {
          var skip := SkipScan(item.name, kept, keptItems);
          if !skip {
            TracksOfSnoc(ctx, keptItems, item);
            kept := kept + [TrackOf(ctx, item)];
            keptItems := keptItems + [item];
            count := count + 1;
          }
        }
        i := i + 1;
      }
      assert items[..i] == items;
    }
    tracks := TrackSet(count, false, kept);
  }

  /** One more item of the answer: kept when available and not skipped. */
  lemma KeptPrefix(country: string, items: seq<TrackEntry>, i: nat)
    requires i < |items|
    ensures var prev := KeptItems(country, items[..i]);
      KeptItems(country, items[..i + 1])
        == if Available(items[i], country) && !Skip(items[i].name, prev) then prev + [items[i]] else prev
  {
    assert items[..i + 1][..i] == items[..i];
  }

  lemma TracksOfSnoc(ctx: ServiceContext, items: seq<TrackEntry>, item: TrackEntry)
    ensures TracksOf(ctx, items + [item]) == TracksOf(ctx, items) + [TrackOf(ctx, item)]
  {
    assert (items + [item])[..|items|] == items;
  }

  /** Unfolds one step of `KeptItems`. */
  lemma KeptItemsLast(country: string, items: seq<TrackEntry>)
    requires items != []
    ensures var prev := KeptItems(country, items[..|items| - 1]);
      var item := items[|items| - 1];
      KeptItems(country, items) == if Available(item, country) && !Skip(item.name, prev) then prev + [item] else prev
  {
  }

  /** No two kept tracks share a name. */
  lemma {:induction false} KeptDistinctNames(country: string, items: seq<TrackEntry>)
    ensures var kept := KeptItems(country, items);
      forall i, j :: 0 <= i < j < |kept| ==> kept[i].name != kept[j].name
    decreases |items|
  {
    if items != [] {
      var prev := KeptItems(country, items[..|items| - 1]);
      KeptDistinctNames(country, items[..|items| - 1]);
      KeptItemsLast(country, items);
      var item := items[|items| - 1];
      if Available(item, country) && !Skip(item.name, prev) {
        var kept := prev + [item];
        forall i, j | 0 <= i < j < |kept| ensures kept[i].name != kept[j].name {
          if j == |prev| {
            assert kept[i] == prev[i];
            assert !(item.name == prev[i].name || Contains(item.name, "karaoke"));
          } else {
            assert kept[i] == prev[i] && kept[j] == prev[j];
          }
        }
      }
    }
  }

  /** Only the first kept track can have `karaoke` in its name. */
  lemma {:induction false} KaraokeOnlyFirst(country: string, items: seq<TrackEntry>)
    ensures var kept := KeptItems(country, items);
      forall i :: 0 < i < |kept| ==> !Contains(kept[i].name, "karaoke")
    decreases |items|
  {
    if items != [] {
      var prev := KeptItems(country, items[..|items| - 1]);
      KaraokeOnlyFirst(country, items[..|items| - 1]);
      KeptItemsLast(country, items);
      var item := items[|items| - 1];
      if Available(item, country) && !Skip(item.name, prev) {
        var kept := prev + [item];
        forall i | 0 < i < |kept| ensures !Contains(kept[i].name, "karaoke") {
          if i == |prev| {
            assert !(item.name == prev[0].name || Contains(item.name, "karaoke"));
          } else {
            assert kept[i] == prev[i];
          }
        }
      }
    }
  }

  /** Every kept item is one of the items, available in the country. */
  lemma {:induction false} KeptAvailable(country: string, items: seq<TrackEntry>)
    ensures var kept := KeptItems(country, items);
      forall i :: 0 <= i < |kept| ==> kept[i] in items && Available(kept[i], country)
    decreases |items|
  {
    if items != [] {
      var init := items[..|items| - 1];
      KeptAvailable(country, init);
      KeptItemsLast(country, items);
      var prev := KeptItems(country, init);
      var kept := KeptItems(country, items);
      forall i | 0 <= i < |kept| ensures kept[i] in items && Available(kept[i], country) {
        if i < |prev| {
          assert kept[i] == prev[i];
          assert prev[i] in init;
        }
      }
    }
  }

  /** Nothing available is lost but karaoke and repeated names: every
      available item without `karaoke` in its name has a kept namesake. */
  lemma {:induction false} KeptComplete(country: string, items: seq<TrackEntry>)
    ensures var kept := KeptItems(country, items);
      forall k :: 0 <= k < |items| && Available(items[k], country) && !Contains(items[k].name, "karaoke") ==>
        exists i :: 0 <= i < |kept| && kept[i].name == items[k].name
    decreases |items|
  {
    if items != [] {
      var init := items[..|items| - 1];
      var prev := KeptItems(country, init);
      KeptComplete(country, init);
      KeptItemsLast(country, items);
      var kept := KeptItems(country, items);
      assert kept[..|prev|] == prev;
      forall k | 0 <= k < |items| && Available(items[k], country) && !Contains(items[k].name, "karaoke")
        ensures exists i :: 0 <= i < |kept| && kept[i].name == items[k].name
      {
        if k < |init| {
          assert items[k] == init[k];
          var i :| 0 <= i < |prev| && prev[i].name == init[k].name;
          assert kept[i] == prev[i];
        } else if Skip(items[k].name, prev) {
          var i :| 0 <= i < |prev| && (items[k].name == prev[i].name || Contains(items[k].name, "karaoke"));
          assert kept[i] == prev[i];
        } else {
          assert kept[|prev|] == items[k];
        }
      }
    }
  }

  /** `isEmpty`: the list the type reads has no item; a type without a list
      counts as empty. */
  function IsEmpty(t: MusicType, reply: Reply): (r: bool)
    ensures t != Song ==> (r <==> ItemsOf(t, reply) == [])
    ensures t == Song ==> (r <==> reply.tracks == [])
  {
    if t == Song then |reply.tracks| == 0 else |ItemsOf(t, reply)| == 0
  }

  /** The adapter as the actions see it. */
  function Adapter(): (r: Catalog.Adapter<Reply>)
    ensures r.countrySuffix == "&market="
  {
    Catalog.Adapter(
      CountrySuffix,
      SearchUrl,
      (t, term, artist, album, track) => GetSearchTerm(t, term, artist, album, track),
      (ctx: ServiceContext, t: MusicType, reply: Reply) => TrackList(ctx, reply),
      IsEmpty,
      UriAndMetadata)
  }

  // ---------------------------------------------------------------------
  // Session state
  // ---------------------------------------------------------------------

  const MissingCredentials: string :=
    "Error: You are missing spotify clientId and secret in settings.json. Please read the README for instructions on how to generate and add them."

  /** The module state: the client credentials from the settings, what
      `setService` bound, and the bearer token of the last authentication;
      `tokenRequests` counts the requests sent to the token endpoint. */
  class Session {
    const clientId: string
    const clientSecret: string
    var sid: string
    var serviceType: string
    var accountSN: string
    var country: string
    var clientToken: Option<string>
    var tokenRequests: nat

    constructor (clientId: string, clientSecret: string)
      ensures this.clientId == clientId && this.clientSecret == clientSecret
      ensures sid == "" && serviceType == "" && accountSN == "" && country == ""
      ensures clientToken == None && tokenRequests == 0
    {
      this.clientId := clientId;
      this.clientSecret := clientSecret;
      sid, serviceType, accountSN, country := "", "", "", "";
      clientToken := None;
      tokenRequests := 0;
    }

    /** The bound values as the pure templates read them. */
    function Context(): ServiceContext
      reads this
    {
      ServiceContext(sid, serviceType, "", accountSN, country)
    }

    /** `setService`: the ids the player reports for Spotify, and the
      account serial number and country it is given. The account id is not
      used. */
    method SetService(player: Player, accountId: string, accountSN: string, country: string)
      modifies this
      ensures Context() == ServiceContext(player.serviceId("Spotify"), player.serviceType("Spotify"), "", accountSN, country)
      ensures clientToken == old(clientToken) && tokenRequests == old(tokenRequests)
    {
      sid := player.serviceId("Spotify");
      serviceType := player.serviceType("Spotify");
      this.accountSN := accountSN;
      this.country := country;
    }

    /** `getHeaders`: the `id:secret` pair the Basic authorization is made
      from, refused when either half is empty. */
    function Credentials(): (r: Result<string, string>)
      ensures r.Ok? <==> clientId != "" && clientSecret != ""
      ensures r.Ok? ==> r.value == clientId + ":" + clientSecret
    {
      if clientId == "" || clientSecret == "" then Err(MissingCredentials)
      else Ok(clientId + ":" + clientSecret)
    }

    /** `getTokenHeaders`: a bearer header once a token is held. */
    function TokenHeader(): (r: Option<string>)
      reads this
      ensures r.Some? <==> clientToken.Some?
      ensures r.Some? ==> StartsWith(r.value, "Bearer ") && r.value[7..] == clientToken.value
    {
      match clientToken
      case None => None
      case Some(token) => Some("Bearer " + token)
    }

    /** `authenticateService`: with credentials, one request to the token
      endpoint; its token replaces the held one, and its failure rejects
      naming the client id. */
    method AuthenticateService(reply: Result<string, string>) returns (r: Result<(), string>)
      modifies this
      ensures Context() == old(Context())
      ensures Credentials().Err? ==>
        r == Err(MissingCredentials) && clientToken == old(clientToken) && tokenRequests == old(tokenRequests)
      ensures Credentials().Ok? ==> tokenRequests == old(tokenRequests) + 1
      ensures Credentials().Ok? && reply.Ok? ==> r == Ok(()) && TokenHeader() == Some("Bearer " + reply.value)
      ensures Credentials().Ok? && reply.Err? ==>
        r == Err("Error: Unable to authenticate Spotify with client id: " + clientId) && clientToken == old(clientToken)
    {
      if clientId == "" || clientSecret == "" {
        return Err(MissingCredentials);
      }
      tokenRequests := tokenRequests + 1;
      if reply.Err? {
        return Err("Error: Unable to authenticate Spotify with client id: " + clientId);
      }
      clientToken := Some(reply.value);
      r := Ok(());
    }
  }
}
