/** The `musicsearch` action (lib/actions/musicSearch.js): validate the
    service and type, resolve the account and the search request, ask the
    adapter whether anything matched, then pick one of four strategies and
    run it on the room's coordinator.

    The adapters of the different services are reached through
    `adapterOf`; all of them answer with a reply of the same type `R` here.
    Network replies are the `Replies` value; the shuffle's random draws are
    `pick`. */
module MusicSearch {
  import opened Wrappers
  import opened Text
  import opened Catalog
  import opened Device
  import opened QueueBuilder
  import opened Shuffle
  import opened Sorting
  import opened Resolver

  const InvalidService: string := "Invalid music service"
  const NoMatches: string := "No matches were found"
  /** What `values[0].toLowerCase()` throws when the route gave no service. */
  const MissingService: string := "TypeError: Cannot read property 'toLowerCase' of undefined"

  /** What the action resolves with: the library load it hands over to, or
      the strategy it played. */
  datatype Outcome = LibraryLoad(reload: bool) | Played(strategy: Strategy)

  /** `values[i]`, with an absent value read as JavaScript renders
      `undefined` in a string. */
  function Arg(values: seq<string>, i: nat): string {
    if i < |values| then values[i] else "undefined"
  }

  /** The two allow-list checks, on the lower-cased service name and the
      type as given. */
  function Validate(values: seq<string>): (r: Result<(Service, MusicType, string), string>)
    ensures r.Ok? ==> (|values| > 0 && ServiceKey(r.value.0) == Lower(values[0])
      && TypeKey(r.value.1) == Arg(values, 1) && r.value.2 == Arg(values, 2))
    ensures |values| == 0 ==> r == Err(MissingService)
    ensures |values| > 0 && ParseService(Lower(values[0])).None? ==> r == Err(InvalidService)
    ensures |values| > 0 && ParseService(Lower(values[0])).Some? && ParseType(Arg(values, 1)).None?
      ==> r == Err("Invalid type " + Arg(values, 1))
  {
    if |values| == 0 then Err(MissingService)
    else match ParseService(Lower(values[0]))
      case None => Err(InvalidService)
      case Some(service) =>
        match ParseType(Arg(values, 1))
        case None => Err("Invalid type " + Arg(values, 1))
        case Some(t) => Ok((service, t, Arg(values, 2)))
  }

  lemma ServiceKeyLower(s: Service)
    ensures Lower(ServiceKey(s)) == ServiceKey(s)
  {
    LowerFixed(ServiceKey(s));
  }

  /** Every service written in any case, with every type, is accepted. */
  lemma ValidateAccepts(s: Service, t: MusicType, name: string, term: string, rest: seq<string>)
    requires Lower(name) == ServiceKey(s)
    ensures Validate([name, TypeKey(t), term] + rest) == Ok((s, t, term))
  {
    var values := [name, TypeKey(t), term] + rest;
    assert values[0] == name && Arg(values, 1) == TypeKey(t) && Arg(values, 2) == term;
    assert ParseService(ServiceKey(s)) == Some(s);
    assert ParseType(TypeKey(t)) == Some(t);
  }

  /** The service name is matched without regard to case. */
  lemma ValidateIgnoresCase(name: string, rest: seq<string>)
    ensures Validate([Lower(name)] + rest) == Validate([name] + rest)
  {
    LowerIdempotent(name);
    var a := [Lower(name)] + rest;
    var b := [name] + rest;
    assert Arg(a, 1) == Arg(b, 1) && Arg(a, 2) == Arg(b, 2);
  }

  /** The library is handed over to its loader for `load`, or whenever
      no index has been built yet. */
  predicate HandsOverToLibrary(s: Service, t: MusicType, noLibrary: bool) {
    s == Library && (t == Load || noLibrary)
  }

  /** What `serviceDef.service(player, accountId, accountSN, country)`
      binds: the ids the player reports under the service's display name. */
  function Context(player: Player, s: Service, accountId: string, accountSN: string, country: string): ServiceContext {
    var name := ServiceDisplayName(s);
    ServiceContext(player.serviceId(name), player.serviceType(name), accountId, accountSN, country)
  }

  // ---------------------------------------------------------------------
  // Track classification
  // ---------------------------------------------------------------------

  function LowerArtists(q: seq<Track>): (r: seq<string>)
    ensures |r| == |q| && forall i :: 0 <= i < |q| ==> r[i] == Lower(q[i].artistName)
  {
    seq(|q|, i requires 0 <= i < |q| => Lower(q[i].artistName))
  }

  function LowerTitles(q: seq<Track>): (r: seq<string>)
    ensures |r| == |q| && forall i :: 0 <= i < |q| ==> r[i] == Lower(q[i].trackName)
  {
    seq(|q|, i requires 0 <= i < |q| => Lower(q[i].trackName))
  }

  /** More than twice as many different titles as different artists
      (names compared lower-cased): the search named an artist, not a song. */
  predicate ManyTracksPerArtist(q: seq<Track>) {
    Distinct(LowerTitles(q)) > 2 * Distinct(LowerArtists(q))
  }

  /** Whether the tracks are played as an artist session. A library album
      always is; for another album the adapter's flag stands; otherwise a
      type-0 search with more than one track is classified by
      `ManyTracksPerArtist`, and a search of type 1 or 2 by its type. */
  predicate ArtistSession(found: TrackList, s: Service, t: MusicType, searchType: int) {
    if s == Library && t == Album then true
    else if t == Album then found.isArtist
    else if searchType != 0 then searchType == 2
    else if found.count > 1 then ManyTracksPerArtist(found.queueTracks)
    else found.isArtist
  }

  /** The track set `loadTracks` returns: classified, and shuffled when it is
      an artist session on a coordinator in shuffle mode. */
  function Loaded(found: TrackList, s: Service, t: MusicType, searchType: int, shuffleOn: bool,
                  pick: nat -> nat): (r: TrackList)
    requires IsPicker(pick)
    ensures r.count == found.count
    ensures r.isArtist == ArtistSession(found, s, t, searchType)
    ensures multiset(r.queueTracks) == multiset(found.queueTracks)
    ensures !(r.isArtist && shuffleOn) ==> r.queueTracks == found.queueTracks
  {
    var isArtist := ArtistSession(found, s, t, searchType);
    if isArtist && shuffleOn then
      ShuffledPermutes(found.queueTracks, |found.queueTracks|, pick);
      TrackSet(found.count, isArtist, Shuffled(found.queueTracks, |found.queueTracks|, pick))
    else TrackSet(found.count, isArtist, found.queueTracks)
  }

  /** A quotient of counts is above 2 exactly when the numerator exceeds
      twice the denominator. */
  lemma RatioAboveTwo(a: nat, b: nat)
    requires b > 0
    ensures (a as real) / (b as real) > 2.0 <==> a > 2 * b
  {
    var d := b as real;
    var q := (a as real) / d;
    assert q * d == a as real;
    assert (2 * b) as real == 2.0 * d;
    var e := q - 2.0;
    assert e * d == (a as real) - 2.0 * d;
    if e > 0.0 {
      ProductPositive(e, d);
    } else {
      ProductPositive(-e, d);
    }
  }

  lemma ProductPositive(x: real, y: real)
    requires x >= 0.0 && y > 0.0
    ensures x * y >= 0.0 && (x > 0.0 ==> x * y > 0.0)
  {
  }

  /** The counting loop of `loadTracks`: in sorted sequences, one plus the
      number of changes between neighbours is the number of different
      elements. */
  method CountNames(artists: seq<string>, songs: seq<string>) returns (artistCount: nat, trackCount: nat)
    requires Sorted(artists) && Sorted(songs) && 1 < |artists| == |songs|
    ensures artistCount == Distinct(artists) && trackCount == Distinct(songs)
    ensures artistCount >= 1
  {
    artistCount := 1;
    trackCount := 1;
    var prevArtist := artists[0];
    var prevTrack := songs[0];
    assert Elements(artists[..1]) == {artists[0]};
    assert Elements(songs[..1]) == {songs[0]};
    var i := 1;
    while i < |artists|
      invariant 1 <= i <= |artists|
      invariant artistCount == Distinct(artists[..i]) && prevArtist == artists[i - 1]
      invariant trackCount == Distinct(songs[..i]) && prevTrack == songs[i - 1]
    {
      DistinctStep(artists, i);
      DistinctStep(songs, i);
      if artists[i] != prevArtist {
        FreshAfterChange(artists, i);
        artistCount := artistCount + 1;
        prevArtist := artists[i];
      } else {
        assert artists[i - 1] == artists[i];
      }
      if songs[i] != prevTrack {
        FreshAfterChange(songs, i);
        trackCount := trackCount + 1;
        prevTrack := songs[i];
      } else {
        assert songs[i - 1] == songs[i];
      }
      i := i + 1;
    }
    assert artists[..i] == artists && songs[..i] == songs;
  }

  /** The type-0 classification of `loadTracks`: sort the lower-cased
      artist names and titles, count the changes between neighbours, and
      compare the quotient of the counts with 2. */
  method CountsClassify(q: seq<Track>) returns (isArtist: bool)
    requires |q| > 1
    ensures isArtist == ManyTracksPerArtist(q)
  {
    var artists := SortStrings(LowerArtists(q));
    var songs := SortStrings(LowerTitles(q));
    var artistCount, trackCount := CountNames(artists, songs);
    DistinctPermutation(artists, LowerArtists(q));
    DistinctPermutation(songs, LowerTitles(q));
    RatioAboveTwo(trackCount, artistCount);
    isArtist := (trackCount as real) / (artistCount as real) > 2.0;
  }

  /** `loadTracks`: classify the adapter's tracks, then shuffle an artist
      session when the coordinator is in shuffle mode. */
  method LoadTracks(found: TrackList, s: Service, t: MusicType, searchType: int, shuffleOn: bool,
                    pick: nat -> nat) returns (tracks: TrackList)
    requires IsPicker(pick)
    ensures tracks == Loaded(found, s, t, searchType, shuffleOn, pick)
  {
    var isArtist := Classify(found, s, t, searchType);
    var q := found.queueTracks;
    if isArtist && shuffleOn {
      q := ShuffleSeq(q, pick);
    }
    tracks := TrackSet(found.count, isArtist, q);
  }

  /** The branches of `loadTracks` that set `isArtist`. */
  method Classify(found: TrackList, s: Service, t: MusicType, searchType: int) returns (isArtist: bool)
    ensures isArtist == ArtistSession(found, s, t, searchType)
  {
    isArtist := found.isArtist;
    if s == Library && t == Album {
      isArtist := true;
    } else if t != Album {
      if searchType == 0 {
        if found.count > 1 {
          isArtist := CountsClassify(found.queueTracks);
        }
      } else {
        isArtist := searchType == 2;
      }
    }
  }

  /** Many songs by one artist make an artist session. */
  lemma OneArtistManySongs(q: seq<Track>, artist: string)
    requires q != [] && forall i :: 0 <= i < |q| ==> Lower(q[i].artistName) == artist
    requires Distinct(LowerTitles(q)) >= 3
    ensures ManyTracksPerArtist(q)
  {
    DistinctConstant(LowerArtists(q), artist);
  }

  /** Songs by as many different artists as there are songs are never an
      artist session. */
  lemma AllDifferentArtists(q: seq<Track>)
    requires Distinct(LowerArtists(q)) == |q|
    ensures !ManyTracksPerArtist(q)
  {
    DistinctAtMost(LowerTitles(q));
  }

  // ---------------------------------------------------------------------
  // Choosing and running a strategy
  // ---------------------------------------------------------------------

  /** A station, or an album or playlist of a streaming service, is played
      from the one item the adapter builds rather than from loaded tracks. */
  predicate PlaysItem(s: Service, t: MusicType) {
    t == Station || ((t == Album || t == Playlist) && s != Library)
  }

  /** What a non-empty reply leads to: a station plays its own URI, an
      album or playlist of a streaming service replaces the queue with the
      container, and everything else is loaded as tracks, played as an
      artist session or by inserting the first track after the current one. */
  function Choose<R>(adapter: Adapter<R>, ctx: ServiceContext, s: Service, t: MusicType, reply: R,
                     searchType: int, shuffleOn: bool, pick: nat -> nat): (r: Result<Strategy, string>)
    requires IsPicker(pick)
    ensures adapter.empty(t, reply) ==> r == Err(NoMatches)
    ensures r.Ok? ==> (r.value.StationStrategy? <==> t == Station)
    ensures r.Ok? ==> (r.value.ContainerStrategy? <==> t != Station && (t == Album || t == Playlist) && s != Library)
    ensures r.Ok? && r.value.ArtistStrategy? ==>
      r.value.tracks != [] && multiset(r.value.tracks) == multiset(adapter.tracks(ctx, t, reply).queueTracks)
    ensures r.Ok? && r.value.InsertStrategy? ==> r.value.track in adapter.tracks(ctx, t, reply).queueTracks
    ensures r.Ok? && (r.value.ArtistStrategy? || r.value.InsertStrategy?) ==>
      (r.value.ArtistStrategy? <==> ArtistSession(adapter.tracks(ctx, t, reply), s, t, searchType))
    ensures !adapter.empty(t, reply) && PlaysItem(s, t) ==>
      var item := adapter.urimeta(ctx, t, reply);
      && (item.Err? ==> r == Err(item.error))
      && (item.Ok? ==> r.Ok? && r.value.item == item.value)
    ensures !adapter.empty(t, reply) && !PlaysItem(s, t) ==>
      var loaded := Loaded(adapter.tracks(ctx, t, reply), s, t, searchType, shuffleOn, pick);
      && (loaded.count == 0 ==> r == Err(NoMatches))
      && (loaded.count != 0 && loaded.isArtist ==> r == Ok(ArtistStrategy(loaded.queueTracks)))
      && (loaded.count != 0 && !loaded.isArtist ==> r == Ok(InsertStrategy(loaded.queueTracks[0])))
  {
    if adapter.empty(t, reply) then Err(NoMatches)
    else if t == Station then
      match adapter.urimeta(ctx, t, reply)
      case Err(e) => Err(e)
      case Ok(item) => Ok(StationStrategy(item))
    else if (t == Album || t == Playlist) && s != Library then
      match adapter.urimeta(ctx, t, reply)
      case Err(e) => Err(e)
      case Ok(item) => Ok(ContainerStrategy(item))
    else
      var tracks := Loaded(adapter.tracks(ctx, t, reply), s, t, searchType, shuffleOn, pick);
      if tracks.count == 0 then Err(NoMatches)
      else if tracks.isArtist then Ok(ArtistStrategy(tracks.queueTracks))
      else
        assert tracks.queueTracks[0] in multiset(tracks.queueTracks);
        Ok(InsertStrategy(tracks.queueTracks[0]))
  }

  /** The choice, with the track loading done by `LoadTracks`. */
  method ChooseStrategy<R>(adapter: Adapter<R>, ctx: ServiceContext, s: Service, t: MusicType, reply: R,
                           searchType: int, shuffleOn: bool, pick: nat -> nat) returns (r: Result<Strategy, string>)
    requires IsPicker(pick)
    ensures r == Choose(adapter, ctx, s, t, reply, searchType, shuffleOn, pick)
  {
    if adapter.empty(t, reply) {
      return Err(NoMatches);
    }
    if t == Station || ((t == Album || t == Playlist) && s != Library) {
      var uam := adapter.urimeta(ctx, t, reply);
      if uam.Err? {
        return Err(uam.error);
      }
      r := Ok(if t == Station then StationStrategy(uam.value) else ContainerStrategy(uam.value));
    } else {
      var tracks := LoadTracks(adapter.tracks(ctx, t, reply), s, t, searchType, shuffleOn, pick);
      if tracks.count == 0 {
        r := Err(NoMatches);
      } else if tracks.isArtist {
        r := Ok(ArtistStrategy(tracks.queueTracks));
      } else {
        r := Ok(InsertStrategy(tracks.queueTracks[0]));
      }
    }
  }

  /** `musicSearch`. `chosen` is the strategy sent to the coordinator, if
      the action got that far; the device is left alone otherwise. */
  method Search<R>(st: SearchState, c: Coordinator, values: seq<string>, adapterOf: Service -> Adapter<R>,
                   player: Player, noLibrary: bool, configuredSN: Service -> Option<string>,
                   net: Replies<R>, pick: nat -> nat)
    returns (r: Result<Outcome, string>, chosen: Option<Strategy>)
    requires IsPicker(pick)
    modifies st, c
    ensures Validate(values).Err? ==>
      r == Err(Validate(values).error) && chosen == None && unchanged(st)
    ensures Validate(values).Ok? && HandsOverToLibrary(Validate(values).value.0, Validate(values).value.1, noLibrary) ==>
      r == Ok(LibraryLoad(Validate(values).value.1 == Load)) && chosen == None && unchanged(st)
    ensures chosen.None? ==> c.State() == old(c.State())
    ensures Validate(values).Ok? && !HandsOverToLibrary(Validate(values).value.0, Validate(values).value.1, noLibrary) ==>
      var (s, t, term) := Validate(values).value;
      var failed := ResolveFailure(s, term, adapterOf(s), net.accounts, net.country, old(st.country));
      && (failed.Some? ==> r == Err(failed.value) && chosen == None)
      && (failed.None? ==>
            (st.accountId, st.accountSN) == AccountAfter(s, net.accounts, player.serviceType(ServiceDisplayName(s)),
                                                          Some(configuredSN(s).GetOr("3")), old(st.accountSN))
            && st.country == CountryAfter(s, adapterOf(s).countrySuffix, old(st.country), net.country)
            && st.searchType == (if t == Song then 0 else old(st.searchType)))
      && (failed.None? && net.search.Err? ==> r == Err(net.search.error) && chosen == None)
      && (failed.None? && net.search.Ok? ==>
            var choice := Choose(adapterOf(s), Context(player, s, st.accountId, st.accountSN, st.country),
                                 s, t, net.search.value, st.searchType, c.shuffle, pick);
            && (choice.Err? ==> r == Err(choice.error) && chosen == None)
            && (choice.Ok? ==> chosen == Some(choice.value)))
    ensures chosen.Some? ==>
      var (s, t, _) := Validate(values).value;
      && Validate(values).Ok? && !HandsOverToLibrary(s, t, noLibrary) && net.search.Ok?
      && Ok(chosen.value) == Choose(adapterOf(s), Context(player, s, st.accountId, st.accountSN, st.country),
                                    s, t, net.search.value, st.searchType, c.shuffle, pick)
      && (chosen.value.ArtistStrategy? ==> chosen.value.tracks != [])
      && c.State() == Run(old(c.State()), PlanOf(chosen.value, QueueUri(c.uuid), old(c.State()).transport))
      && (r.Ok? <==> old(c.budget) >= SettlesAfter(chosen.value, QueueUri(c.uuid), old(c.State()).transport))
      && (r.Ok? ==> r.value == Played(chosen.value))
      && (r.Err? ==> r.error == c.rejection)
  {
    chosen := None;
    var v := Validate(values);
    if v.Err? {
      return Err(v.error), None;
    }
    var (s, t, term) := v.value;
    if s == Library && (t == Load || noLibrary) {
      return Ok(LibraryLoad(t == Load)), None;
    }
    var adapter := adapterOf(s);
    var request := Resolve(st, s, t, term, adapter, net.accounts, player.serviceType(ServiceDisplayName(s)),
                           Some(configuredSN(s).GetOr("3")), net.country);
    if request.Err? {
      return Err(request.error), None;
    }
    if net.search.Err? {
      return Err(net.search.error), None;
    }
    var ctx := Context(player, s, st.accountId, st.accountSN, st.country);
    var choice := ChooseStrategy(adapter, ctx, s, t, net.search.value, st.searchType, c.shuffle, pick);
    if choice.Err? {
      return Err(choice.error), None;
    }
    chosen := Some(choice.value);
    var done := Execute(c, choice.value);
    if done.Err? {
      return Err(done.error), chosen;
    }
    r := Ok(Played(choice.value));
  }
}
