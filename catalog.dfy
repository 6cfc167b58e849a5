/** What every catalog adapter shares: the closed lists of services and
    request types, the normalised track model, and the adapter contract
    itself as a record of functions (the `serviceDef` objects of
    lib/music_services/ and the `getService` switch of lib/actions/). */
module Catalog {
  import opened Wrappers
  import Text

  datatype Service = Apple | Spotify | Deezer | Elite | Library

  datatype MusicType = Album | Song | Station | Load | Playlist

  /** The service's entry in `musicServices`. */
  function ServiceKey(s: Service): string {
    match s
    case Apple => "apple"
    case Spotify => "spotify"
    case Deezer => "deezer"
    case Elite => "elite"
    case Library => "library"
  }

  /** `serviceNames[service]`: the name the device's account list uses. */
  function ServiceDisplayName(s: Service): string {
    match s
    case Apple => "Apple Music"
    case Spotify => "Spotify"
    case Deezer => "Deezer"
    case Elite => "Deezer"
    case Library => "Library"
  }

  function TypeKey(t: MusicType): string {
    match t
    case Album => "album"
    case Song => "song"
    case Station => "station"
    case Load => "load"
    case Playlist => "playlist"
  }

  /** `musicServices.indexOf(s) != -1` together with `getService(s)`. */
  function ParseService(s: string): (r: Option<Service>)
    ensures r.Some? ==> ServiceKey(r.value) == s
  {
    if s == "apple" then Some(Apple)
    else if s == "spotify" then Some(Spotify)
    else if s == "deezer" then Some(Deezer)
    else if s == "elite" then Some(Elite)
    else if s == "library" then Some(Library)
    else None
  }

  /** `musicTypes.indexOf(t) != -1`. */
  function ParseType(t: string): (r: Option<MusicType>)
    ensures r.Some? ==> TypeKey(r.value) == t
  {
    if t == "album" then Some(Album)
    else if t == "song" then Some(Song)
    else if t == "station" then Some(Station)
    else if t == "load" then Some(Load)
    else if t == "playlist" then Some(Playlist)
    else None
  }

  /** The allow-lists accept exactly the five service names and the five type names. */
  lemma ParseServiceExact(s: string, svc: Service)
    ensures ParseService(s) == Some(svc) <==> s == ServiceKey(svc)
  {
  }

  lemma ParseTypeExact(t: string, ty: MusicType)
    ensures ParseType(t) == Some(ty) <==> t == TypeKey(ty)
  {
  }

  /** A playable item: the only thing ever handed to the device. */
  datatype UriMeta = UriMeta(uri: string, metadata: string)

  /** A normalised track. */
  datatype Track = Track(
    trackName: string,
    artistName: string,
    albumTrackNumber: Option<int>,
    uri: string,
    metadata: string)
  {
    function Item(): UriMeta { UriMeta(uri, metadata) }
  }

  datatype TrackSet = TrackSet(count: int, isArtist: bool, queueTracks: seq<Track>)

  /** A track set whose `count` is the number of its tracks, as every
      adapter's `loadTracks` keeps it (one `count++` per push). */
  type TrackList = t: TrackSet | t.count == |t.queueTracks| witness TrackSet(0, false, [])

  /** What the player's discovery layer answers for a service, looked up
      by its display name: `getServiceId` and `getServiceType`. */
  datatype Player = Player(serviceId: string -> string, serviceType: string -> string)

  /** What `serviceDef.service(player, accountId, accountSN, country)` binds
      before any URI or metadata is built. */
  datatype ServiceContext = ServiceContext(
    sid: string,
    serviceType: string,
    accountId: string,
    accountSN: string,
    country: string)

  /** The adapter contract, over the adapter's own reply type `R`. */
  datatype Adapter<!R> = Adapter(
    countrySuffix: string,
    searchUrl: MusicType -> string,
    term: (MusicType, string, string, string, string) -> string,
    tracks: (ServiceContext, MusicType, R) -> TrackList,
    empty: (MusicType, R) -> bool,
    urimeta: (ServiceContext, MusicType, R) -> Result<UriMeta, string>)
}
