/** The `search` action (lib/actions/search.js): the same resolution as
    `musicsearch`, but it answers with what it found instead of playing
    it. The service name is not lower-cased, a missing serial number is not
    replaced, and tracks are classified by the search type alone. */
module SearchAction {
  import opened Wrappers
  import opened Catalog
  import opened Shuffle
  import opened QueueBuilder
  import opened Resolver
  import MusicSearch

  /** What the action resolves with. */
  datatype Found =
    | UriAndMetadata(item: UriMeta)
    | Tracks(tracks: TrackList)
    | LibraryLoad(reload: bool)

  /** The allow-list checks on the service and type exactly as given; an
      absent service reads as `undefined`, which no list holds. */
  function Validate(values: seq<string>): (r: Result<(Service, MusicType, string), string>)
    ensures r.Ok? ==> (ServiceKey(r.value.0) == MusicSearch.Arg(values, 0)
      && TypeKey(r.value.1) == MusicSearch.Arg(values, 1) && r.value.2 == MusicSearch.Arg(values, 2))
    ensures ParseService(MusicSearch.Arg(values, 0)).None? ==> r == Err(MusicSearch.InvalidService)
    ensures ParseService(MusicSearch.Arg(values, 0)).Some? && ParseType(MusicSearch.Arg(values, 1)).None?
      ==> r == Err("Invalid type " + MusicSearch.Arg(values, 1))
  {
    match ParseService(MusicSearch.Arg(values, 0))
    case None => Err(MusicSearch.InvalidService)
    case Some(service) =>
      match ParseType(MusicSearch.Arg(values, 1))
      case None => Err("Invalid type " + MusicSearch.Arg(values, 1))
      case Some(t) => Ok((service, t, MusicSearch.Arg(values, 2)))
  }

  /** Unlike `musicsearch`, a capitalised service name is refused. */
  lemma CapitalisedRefused(rest: seq<string>)
    ensures Validate(["Spotify"] + rest) == Err(MusicSearch.InvalidService)
  {
    assert MusicSearch.Arg(["Spotify"] + rest, 0) == "Spotify";
  }

  /** `loadTracks` of this action: a library album is an artist session,
      any other album keeps the adapter's flag, and everything else is one
      exactly for search type 2. Tracks are never shuffled. */
  function Classified(found: TrackList, s: Service, t: MusicType, searchType: int): (r: TrackList)
    ensures r.queueTracks == found.queueTracks && r.count == found.count
    ensures t != Album ==> (r.isArtist <==> searchType == 2)
    ensures t == Album ==> (r.isArtist <==> s == Library || found.isArtist)
  {
    if s == Library && t == Album then found.(isArtist := true)
    else if t != Album then found.(isArtist := searchType == 2)
    else found
  }

  /** No search ever sets type 2, so outside albums nothing this action
      returns is an artist session. */
  lemma NeverArtistOutsideAlbums(found: TrackList, s: Service, t: MusicType)
    requires t != Album
    ensures !Classified(found, s, t, 0).isArtist
  {
  }

  /** The answer to a non-empty reply. */
  function Answer<R>(adapter: Adapter<R>, ctx: ServiceContext, s: Service, t: MusicType, reply: R,
                     searchType: int): (r: Result<Found, string>)
    ensures adapter.empty(t, reply) ==> r == Err(MusicSearch.NoMatches)
    ensures r.Ok? ==> !r.value.LibraryLoad?
    ensures r.Ok? ==> (r.value.UriAndMetadata? <==> t == Station || ((t == Album || t == Playlist) && s != Library))
    ensures r.Ok? && r.value.UriAndMetadata? ==> adapter.urimeta(ctx, t, reply) == Ok(r.value.item)
    ensures r.Ok? && r.value.Tracks? ==> r.value.tracks.queueTracks == adapter.tracks(ctx, t, reply).queueTracks
  {
    if adapter.empty(t, reply) then Err(MusicSearch.NoMatches)
    else if t == Station || ((t == Album || t == Playlist) && s != Library) then
      match adapter.urimeta(ctx, t, reply)
      case Err(e) => Err(e)
      case Ok(item) => Ok(UriAndMetadata(item))
    else Ok(Tracks(Classified(adapter.tracks(ctx, t, reply), s, t, searchType)))
  }

  /** For a station or a streaming album or playlist, `search` answers
      with the very item `musicsearch` would play. */
  lemma AgreesWithMusicSearch<R>(adapter: Adapter<R>, ctx: ServiceContext, s: Service, t: MusicType, reply: R,
                                 searchType: int, shuffleOn: bool, pick: nat -> nat, item: UriMeta)
    requires IsPicker(pick)
    requires t == Station || ((t == Album || t == Playlist) && s != Library)
    ensures Answer(adapter, ctx, s, t, reply, searchType) == Ok(UriAndMetadata(item)) <==>
      (var c := MusicSearch.Choose(adapter, ctx, s, t, reply, searchType, shuffleOn, pick);
       c == Ok(StationStrategy(item)) || c == Ok(ContainerStrategy(item)))
  {
  }

  /** `search`. */
  method Search<R>(st: SearchState, values: seq<string>, adapterOf: Service -> Adapter<R>,
                   player: Player, noLibrary: bool, net: Replies<R>)
    returns (r: Result<Found, string>)
    modifies st
    ensures Validate(values).Err? ==> r == Err(Validate(values).error) && unchanged(st)
    ensures Validate(values).Ok? && MusicSearch.HandsOverToLibrary(Validate(values).value.0, Validate(values).value.1, noLibrary) ==>
      r == Ok(LibraryLoad(Validate(values).value.1 == Load)) && unchanged(st)
    ensures Validate(values).Ok? && !MusicSearch.HandsOverToLibrary(Validate(values).value.0, Validate(values).value.1, noLibrary) ==>
      var (s, t, term) := Validate(values).value;
      var failed := ResolveFailure(s, term, adapterOf(s), net.accounts, net.country, old(st.country));
      && (failed.Some? ==> r == Err(failed.value))
      && (failed.None? ==>
            (st.accountId, st.accountSN) == AccountAfter(s, net.accounts, player.serviceType(ServiceDisplayName(s)),
                                                          None, old(st.accountSN))
            && st.country == CountryAfter(s, adapterOf(s).countrySuffix, old(st.country), net.country)
            && st.searchType == (if t == Song then 0 else old(st.searchType)))
      && (failed.None? && net.search.Err? ==> r == Err(net.search.error))
      && (failed.None? && net.search.Ok? ==>
            r == Answer(adapterOf(s), MusicSearch.Context(player, s, st.accountId, st.accountSN, st.country),
                        s, t, net.search.value, st.searchType))
    ensures r.Ok? && !r.value.LibraryLoad? ==>
      var (s, t, _) := Validate(values).value;
      && Validate(values).Ok? && net.search.Ok?
      && r == Answer(adapterOf(s), MusicSearch.Context(player, s, st.accountId, st.accountSN, st.country),
                     s, t, net.search.value, st.searchType)
  {
    var v := Validate(values);
    if v.Err? {
      return Err(v.error);
    }
    var (s, t, term) := v.value;
    if s == Library && (t == Load || noLibrary) {
      return Ok(LibraryLoad(t == Load));
    }
    var adapter := adapterOf(s);
    var request := Resolve(st, s, t, term, adapter, net.accounts, player.serviceType(ServiceDisplayName(s)),
                           None, net.country);
    if request.Err? {
      return Err(request.error);
    }
    if net.search.Err? {
      return Err(net.search.error);
    }
    var ctx := MusicSearch.Context(player, s, st.accountId, st.accountSN, st.country);
    r := Answer(adapter, ctx, s, t, net.search.value, st.searchType);
  }
}
