# Sonos HTTP API: the music resolve-and-queue pipeline in Dafny

This project models the core of a Sonos HTTP API server that also answers an
Alexa skill. A request such as `/Kitchen/musicsearch/spotify/song/artist:x track:y`
or an Alexa intent is resolved in three steps:

1. The free-text query is split into `artist`, `album` and `track` fields.
2. The query is turned into a catalog term and sent to a music service. The
   services are Spotify and the local music library.
3. The result is normalised into a list of tracks and queued on the room's
   coordinator player by one of four ordered command sequences: station,
   container, artist session or single-track insert.

The modules follow the program's files:

- `QueryParser`: the tokenizer shared by `musicSearch.js` and `search.js`.
- `Resolver`: the account id extraction, the search term and the cached
  country (module state, as a class).
- `MusicSearch`, `SearchAction`, `PlayTrack`: the three actions.
- `QueueBuilder` and `Device`: the command sequences and the coordinator
  player they drive.
- `Catalog`: the shared track and service types and the adapter interface.
- `Spotify`, `Library`, `LibraryIndex`: the two catalog adapters and the
  library indexer with its paginated browse.
- `Shuffle` and `Sorting`: reorderings used by the adapters and the actions.
- `AlexaHandlers`: room and group parsing, the coordinator cache, slot
  resolution, the sleep breakdown and the search selection of the skill.
- `RoomService`: the device to (room, service) table.
- `SonosApi`: the action registry.
- `Settings`: the recursive merge over the defaults.
- `SonosRoute` and `AlexaRoute`: the URL-path parser and the certificate
  helpers of the skill endpoint.
- `Text` and `Wrappers`: JavaScript string operations and Option/Result.

The coordinator player is an external component. `Device.Coordinator` states
the contract the pipeline relies on:

- `ClearQueue` empties the queue.
- `SetAVTransportURI` sets the transport and moves the current track number to 1.
- `AddURIToQueue` inserts at the requested position, or appends when that
  position is out of range.
- `TrackSeek` moves the current track number.
- `Play` starts playback.

A command may be refused. A sequence stops at the first refused command and
reports that refusal, as the promise chains do. Network replies are
parameters: the account list, the country lookup, the catalog reply, the
token reply and the library browse pages.

## Model

| member | source | states |
|---|---|---|
| MusicSearch.Validate | lib/actions/musicSearch.js:235-247 | the service name is lower-cased and must be one of the five services, else `Invalid music service`; the type is taken as given and must be one of the five types, else `Invalid type <type>`; an accepted request yields the parsed service, type and term |
| MusicSearch.ServiceKeyLower | lib/actions/musicSearch.js:14 | every service key is already lower case, so it survives the lower-casing of the request |
| MusicSearch.ValidateAccepts | lib/actions/musicSearch.js:236-247 | any capitalisation of a service name with a listed type is accepted, whatever follows the third value |
| MusicSearch.ValidateIgnoresCase | lib/actions/musicSearch.js:236 | validation gives the same answer for a service name and its lower-cased form |
| MusicSearch.LowerArtists | lib/actions/musicSearch.js:199-201 | the artist names lower-cased one for one, in order |
| MusicSearch.LowerTitles | lib/actions/musicSearch.js:202-204 | the track names lower-cased one for one, in order |
| MusicSearch.Loaded | lib/actions/musicSearch.js:187-233 | `loadTracks` keeps the count, sets the artist flag exactly when the search is an artist session, and only reorders the tracks (a permutation), and only when an artist session meets shuffle mode |
| MusicSearch.RatioAboveTwo | lib/actions/musicSearch.js:219 | the floating-point test `trackCount/artistCount > 2` holds exactly when the track count exceeds twice the artist count |
| MusicSearch.CountNames | lib/actions/musicSearch.js:206-218 | the loop over the sorted names counts exactly the distinct artists and the distinct titles |
| MusicSearch.CountsClassify | lib/actions/musicSearch.js:196-219 | for more than one track, the artist flag is set exactly when there are more than twice as many distinct titles as distinct artists |
| MusicSearch.LoadTracks | lib/actions/musicSearch.js:187-233 | the method computes the classified and possibly shuffled track set that `Loaded` specifies |
| MusicSearch.Classify | lib/actions/musicSearch.js:190-224 | the flag follows the order of the source's branches: a library album is an artist session; another album keeps the adapter's flag; a typed search follows its type; otherwise the distinct-name ratio decides |
| MusicSearch.OneArtistManySongs | lib/actions/musicSearch.js:194-219 | tracks by one artist with at least three distinct titles are played as an artist session |
| MusicSearch.AllDifferentArtists | lib/actions/musicSearch.js:194-219 | when every track has a different artist, the result is never an artist session |
| MusicSearch.Choose | lib/actions/musicSearch.js:259-336 | no match rejects with `No matches were found`. A station, and an album or playlist from a streaming service, plays the adapter's uri and metadata item, or rejects with the adapter's error. Otherwise the tracks `Loaded` gives decide: none rejects with `No matches were found`; an artist session queues them all in `Loaded`'s order (a non-empty permutation of the adapter's tracks); any other search inserts the first of them after the current track |
| MusicSearch.ChooseStrategy | lib/actions/musicSearch.js:255-283 | the method picks the strategy `Choose` specifies |
| MusicSearch.Search | lib/actions/musicSearch.js:235-341 | an invalid request rejects and changes nothing; a library load is handed over. Otherwise each failure rejects with its own error and queues nothing: the account list, a malformed encoding, the country lookup, the search reply, then `Choose`. The account id, serial number and country left are those the replies give (`AccountAfter`, `CountryAfter`), and a song search resets the search type. A chosen strategy's commands run on the coordinator; the result is played exactly when the device accepts every command, and carries the device's rejection otherwise |
| Catalog.ParseService | lib/actions/musicSearch.js:14-41 | a service name is recognised only when it is exactly one of the five keys, and the service found has that key |
| Catalog.ParseType | lib/actions/musicSearch.js:245-247 | a type is recognised only when it is exactly one of the five type names, and the type found has that name |
| Catalog.ParseServiceExact | lib/actions/musicSearch.js:14-21 | both directions: a name parses to a service exactly when it is that service's key |
| Catalog.ParseTypeExact | lib/actions/musicSearch.js:22 | both directions: a name parses to a type exactly when it is that type's name |
| PlayTrack.PlayTrack | lib/actions/playTrack.js:4-31 | for a non-empty list, the first track is inserted after the current one (or at 1 in an empty queue), the queue becomes the source, the player seeks to it when the queue was not empty, then plays; the result is fine exactly when the device accepts every command. For an empty list only the queue read is issued and the action fails with a TypeError |
| Device.Insert | lib/actions/musicSearch.js:320-324 | adding at a 1-based position puts the item there, the queue grows by one, and it keeps every other item (a multiset identity) |
| Device.Page | lib/actions/musicSearch.js:315-316 | `getQueue(offset, limit)` returns at most `limit` items, and none exactly when the offset is past the end or the limit is zero |
| Device.RunAppend | lib/actions/musicSearch.js:274-278 | running two command chains one after the other is the same as running them joined |
| Device.ApplyAllAppend | lib/actions/musicSearch.js:274-278 | the device's reaction to joined command chains is the reaction to the first chain, followed by the reaction to the second |
| Device.RunPrefix | lib/actions/musicSearch.js:274-278 | a promise chain runs the commands the device still accepts, in order, and stops at the first rejection without changing anything after it |
| Device.RunStuck | lib/actions/musicSearch.js:274-278 | a device that rejects every command is left exactly as it was |
| Device.ApplyEffects | lib/actions/musicSearch.js:264-335 | each command changes only its own part of the transport: only `ClearQueue` and `AddURIToQueue` touch the queue, the latter adding exactly its item; only `SetAVTransport` touches the source; only it and `TrackSeek` move the track number; `Play` starts playback and nothing stops it |
| Device.Apply | lib/actions/musicSearch.js:264-335 | one command's effect; stated by `ApplyEffects` and `Insert` |
| Device.Run | lib/actions/musicSearch.js:274-278 | a promise chain on the device; stated by `RunPrefix`, `RunAppend` and `RunStuck` |
| Device.Coordinator.constructor | lib/actions/musicSearch.js:239 | a coordinator starts with the given uuid, shuffle mode, transport and acceptance budget, and an empty command log |
| Device.Coordinator.Send | lib/actions/musicSearch.js:274-334 | a command is accepted exactly when the device still accepts commands; an accepted one is logged and applied, and a rejected one changes nothing |
| Device.Coordinator.ClearQueue | lib/actions/musicSearch.js:274 | `clearQueue` is one command, with that acceptance rule |
| Device.Coordinator.SetAVTransport | lib/actions/musicSearch.js:275 | `setAVTransport` is one command, with that acceptance rule |
| Device.Coordinator.AddURIToQueue | lib/actions/musicSearch.js:276-277 | `addURIToQueue` is one command, with that acceptance rule |
| Device.Coordinator.GetQueue | lib/actions/musicSearch.js:315 | `getQueue` is one command; when it is accepted it answers the page of the queue as it was |
| Device.Coordinator.TrackSeek | lib/actions/musicSearch.js:329 | `trackSeek` is one command, with that acceptance rule |
| Device.Coordinator.Play | lib/actions/musicSearch.js:268 | `play` is one command, with that acceptance rule |
| QueueBuilder.Items | lib/actions/musicSearch.js:290-307 | each track gives one playable item (uri and metadata), in order |
| QueueBuilder.Enqueue | lib/actions/musicSearch.js:300-309 | the detached chain adds one command per remaining track |
| QueueBuilder.Execute | lib/actions/musicSearch.js:264-336 | the chosen strategy's command plan runs on the coordinator; the result is fine exactly when the device accepts the commands the promise waits for, and carries the device's rejection otherwise |
| QueueBuilder.SendAll | lib/actions/musicSearch.js:300-309 | a command chain is accepted up to the device's budget, and the new state is exactly that of running the chain |
| QueueBuilder.PlayStation | lib/actions/musicSearch.js:264-269 | a station sets the transport to the item and plays, and settles fine exactly when both commands are accepted |
| QueueBuilder.PlayContainer | lib/actions/musicSearch.js:270-278 | an album or playlist clears the queue, makes the queue the source, adds the container at 1 and plays |
| QueueBuilder.PlayArtist | lib/actions/musicSearch.js:285-310 | an artist session queues the first track, plays, then enqueues the rest; the promise settles after play |
| QueueBuilder.InsertTrack | lib/actions/musicSearch.js:311-335 | one song is inserted after the current track (or at 1 in an empty queue), followed by the source switch, the seek when the queue was not empty, and play |
| QueueBuilder.RunAll | lib/actions/musicSearch.js:274-278 | when the device accepts every command, the transport is their combined effect and the log gains exactly those commands |
| QueueBuilder.StationOutcome | lib/actions/musicSearch.js:264-269 | after a station the transport plays the station item from track 1 |
| QueueBuilder.StationKeepsQueue | lib/actions/musicSearch.js:264-269 | playing a station never changes the queue, whatever the device accepts |
| QueueBuilder.ContainerOutcome | lib/actions/musicSearch.js:270-278 | after a container the queue holds just that container, the queue is the source, and it plays from track 1 |
| QueueBuilder.EnqueueAppends | lib/actions/musicSearch.js:300-309 | the enqueue chain, with positions `index + 2`, appends the remaining tracks in order |
| QueueBuilder.ArtistOutcome | lib/actions/musicSearch.js:285-310 | after a full artist session the queue is exactly the tracks in order, the queue is the source, and it plays from track 1 |
| QueueBuilder.InsertOutcome | lib/actions/musicSearch.js:311-335 | inserting a song adds exactly that item to the queue. In an empty queue it becomes the only track. Otherwise it lands right after the current track, the current track number moves onto it, and the player plays from the queue |
| QueueBuilder.InsertApplied | lib/actions/musicSearch.js:311-335 | the insert plan's effect on the transport, stated through the queue insert at the computed position |
| QueueBuilder.InsertSeekOrder | lib/actions/musicSearch.js:315-335 | the insert plan reads the queue first, switches the source third and plays last, and seeks, to `trackNo + 1`, exactly when the queue was not empty |
| Resolver.SearchState.constructor | lib/actions/musicSearch.js:24-27 | the module state starts with no country, account id or serial number, search type 0, and no country lookup made |
| Resolver.AccountIdRead | lib/actions/musicSearch.js:52-58 | when the service's marker occurs in the account list and the first `<UN>` after it wraps `id`, the account id read is exactly `id` |
| Resolver.AccountSerialRead | lib/actions/musicSearch.js:52-59 | when the first `SerialNum="` after the marker is followed by `sn` and a quote, the serial number read is exactly `sn` |
| Resolver.AccountMissing | lib/actions/musicSearch.js:52-63 | a list without the service's marker yields no account fields |
| Resolver.GetAccountId | lib/actions/musicSearch.js:43-70 | the account id is always reset. The library asks for nothing. A failed account request rejects with its error. Otherwise the id and serial number are read after the service's marker; without the marker the serial number falls back to the configured one (search.js keeps the old one) |
| Resolver.BuildTerm | lib/actions/musicSearch.js:94-145 | the term built is the adapter's term over the tokenizer's artist, album and track when the text has a ':'; without one it is the text itself for the library and its percent-encoding otherwise |
| Resolver.PlainTermPreserved | lib/actions/musicSearch.js:143-145 | a term without ':' reaches the library unchanged, and a streaming service gets an encoding that decodes back to it |
| Resolver.DoSearch | lib/actions/musicSearch.js:81-170 | a malformed percent-encoding rejects and changes nothing. The library gets its own query. A streaming service gets the search URL plus the term, and the country suffix when the adapter has one. The country is looked up, once, only while none is cached; a failed lookup rejects. A song search leaves the search type at 0 |
| Resolver.Resolve | lib/actions/musicSearch.js:253-254 | `getAccountId` then `doSearch`: the step fails exactly when `ResolveFailure` names an error, in the order account list, malformed encoding, country lookup, and rejects with it; the account, serial number, country and search type left are `AccountAfter`, `CountryAfter` and the song reset |
| QueryParser.FieldTagKind | lib/actions/musicSearch.js:108-113 | `accumulate` stops exactly at a token whose text before the first ':' names one of the four fields, in any case |
| QueryParser.Words | lib/actions/musicSearch.js:99 | there is one word per space-separated token |
| QueryParser.WordAt | lib/actions/musicSearch.js:99 | word `k` is token `k` read |
| QueryParser.NextTag | lib/actions/musicSearch.js:106-117 | the index where `accumulate` stops: every token before it is untagged, and the token there, if any, is tagged |
| QueryParser.Gathers | lib/actions/musicSearch.js:115-116 | an untagged token is appended with a trailing space, and the stopping point lies beyond it |
| QueryParser.IsFieldTagged | lib/actions/musicSearch.js:108-113 | the stop test holds exactly for a token tagged with one of the four fields |
| QueryParser.Accumulate | lib/actions/musicSearch.js:103-120 | the loop stops at the next field-tagged token and returns the tokens before it, joined by spaces and trimmed |
| QueryParser.TokenValue | lib/actions/musicSearch.js:128-135 | a tag's value is the text after its first ':' (and before any second), followed by the gathered words, trimmed |
| QueryParser.PrefixKind | lib/actions/musicSearch.js:126-136 | a token with a ':' sets the artist, album or track exactly when its lower-cased prefix is that name; a token without one sets nothing |
| QueryParser.ParseStep | lib/actions/musicSearch.js:122-138 | one pass of the outer loop: an artist, album or track tag sets its field and skips the gathered words; any other token is passed over |
| QueryParser.Tokenize | lib/actions/musicSearch.js:99-138 | the two nested loops compute exactly the artist, album and track that `Parse` defines |
| QueryParser.UntaggedSkipped | lib/actions/musicSearch.js:122-138 | untagged tokens and `year:` tokens never change a field |
| QueryParser.NoColonNoTag | lib/actions/musicSearch.js:124-126 | a token without ':' has no tag |
| QueryParser.UntouchedField | lib/actions/musicSearch.js:130-131 | when no artist tag follows, the artist field keeps its value |
| QueryParser.LaterTagWins | lib/actions/musicSearch.js:130-131 | an artist tag overwrites whatever an earlier one set |
| QueryParser.LastArtistTag | lib/actions/musicSearch.js:130-131 | the artist field ends as the value of the last artist tag |
| QueryParser.Parse | lib/actions/musicSearch.js:99-138 | the artist, album and track of a query; stated by `Tokenize`, `UntaggedSkipped`, `LaterTagWins` and `LastArtistTag` |
| QueryParser.ParseFrom | lib/actions/musicSearch.js:122-138 | the outer loop from a given token on; stated by `ParseStep` and `UntouchedField` |
| SearchAction.Validate | lib/actions/search.js:171-182 | the service name is checked as given, without lower-casing: only the five exact keys pass; then the type must be one of the five type names |
| SearchAction.CapitalisedRefused | lib/actions/search.js:172-178 | unlike `musicsearch`, `search` rejects `Spotify` as an invalid music service |
| SearchAction.Classified | lib/actions/search.js:159-169 | the tracks and their count are kept; a library album is an artist session, another album keeps the adapter's flag, and any other type is an artist session exactly when the search type is 2 |
| SearchAction.NeverArtistOutsideAlbums | lib/actions/search.js:164-166 | since the search type stays 0, a non-album search is never an artist session |
| SearchAction.Answer | lib/actions/search.js:190-207 | no match rejects with `No matches were found`; a station, or an album or playlist from a streaming service, answers the adapter's uri and metadata; anything else answers the adapter's tracks |
| SearchAction.AgreesWithMusicSearch | lib/actions/search.js:196-202 | for stations and containers, `search` answers exactly the item `musicsearch` would play |
| SearchAction.Search | lib/actions/search.js:171-208 | an invalid request rejects and changes nothing; a library load is handed over. Otherwise the account list, a malformed encoding, the country lookup and the search reply each reject with their own error; the account id, serial number and country left are those the replies give, the serial kept when the list lacks the service. A successful reply is answered by `Answer` under that account and country |
| Shuffle.Swap | lib/actions/musicSearch.js:179-181 | the two positions are exchanged and every other position is kept |
| Shuffle.SwapPermutes | lib/actions/musicSearch.js:179-181 | a swap is a permutation |
| Shuffle.Shuffled | lib/actions/musicSearch.js:172-185 | the shuffle keeps the length |
| Shuffle.ShuffledPermutes | lib/actions/musicSearch.js:172-185 | the shuffle is a permutation, for every choice of random indices |
| Shuffle.ShuffleInPlace | lib/actions/musicSearch.js:172-185 | the in-place loop over the array leaves exactly the shuffle `Shuffled` defines |
| Shuffle.ShuffleSeq | lib/music_services/libraryDef.js:248-257 | the same shuffle, on a copy of the hits |
| Sorting.InsertSorted | lib/actions/musicSearch.js:199-204 | inserting into a sorted list keeps it sorted and adds exactly the one element |
| Sorting.SortStrings | lib/actions/musicSearch.js:199-204 | `Array.prototype.sort` on strings gives a sorted permutation |
| Sorting.FreshAfterChange | lib/actions/musicSearch.js:209-217 | in a sorted list, a name that differs from its predecessor has not occurred before |
| Sorting.DistinctStep | lib/actions/musicSearch.js:209-217 | one more element raises the distinct count exactly when it is new |
| Sorting.DistinctPermutation | lib/actions/musicSearch.js:199-204 | sorting does not change the number of distinct names |
| Sorting.DistinctAtMost | lib/actions/musicSearch.js:196-219 | there are never more distinct names than tracks |
| Sorting.DistinctConstant | lib/actions/musicSearch.js:196-219 | a non-empty list of one repeated name has one distinct name |
| Spotify.AddFieldJoins | lib/music_services/spotifyDef.js:156-164 | each step that appends a non-empty field keeps the term equal to the space-joined list of the fields tagged so far |
| Spotify.QueryJoinsFields | lib/music_services/spotifyDef.js:153-165 | the term before encoding is the non-empty fields, tagged `album:`, `artist:` and `track:` in that order, joined by single spaces |
| Spotify.SearchTermDecodes | lib/music_services/spotifyDef.js:153-169 | the search term is a percent-encoding that decodes back to that joined query |
| Spotify.GetUri | lib/music_services/spotifyDef.js:125-135 | each of album, song, station and playlist has a URI, beginning with that type's prefix and the id; `load` has none |
| Spotify.UriInjective | lib/music_services/spotifyDef.js:125-135 | for ids without '?', different ids give different URIs |
| Spotify.MetadataHidesTitle | lib/music_services/spotifyDef.js:171-181 | outside stations the title never reaches the metadata |
| Spotify.ParentUri | lib/music_services/spotifyDef.js:205-209 | the parent id is the type's parent prefix and the name, except for a compilation album: there it is the compilation prefix and its first artist's id, and a TypeError when it has no artist |
| Spotify.UriAndMetadataWith | lib/music_services/spotifyDef.js:183-215 | an empty item list fails, as reading `items[0].id` throws; only albums, stations and playlists give a uri and metadata |
| Spotify.UriAndMetadataAsWritten | lib/music_services/spotifyDef.js:183-215 | the code as written, with the undefined compilation prefix; an empty item list fails |
| Spotify.UriAndMetadata | lib/music_services/spotifyDef.js:183-215 | the corrected lookup, with the collection prefix; an empty item list fails |
| Spotify.FirstItemPlayable | lib/music_services/spotifyDef.js:200-212 | for a station, album or playlist with at least one item, the answer is the URI of the first item, with the percent-encoded artist id for a station and the encoded item URI otherwise |
| Spotify.CompilationParentAsWritten | lib/music_services/spotifyDef.js:207-208 | as written, a compilation's parent id is `undefined` followed by the artist id, so it never starts with the collection prefix |
| Spotify.CompilationParentCorrected | lib/music_services/spotifyDef.js:207-208 | corrected, a compilation's parent id is the collection prefix followed by its first artist's id |
| Spotify.OnlyCompilationsDiffer | lib/music_services/spotifyDef.js:207-208 | the written and the corrected lookup agree on every reply whose first album is not a compilation |
| Spotify.TrackOf | lib/music_services/spotifyDef.js:240-249 | a queued track keeps the track's name, takes the first artist's name (empty when there is none), has no album track number, and its uri is the song URI of the percent-encoded id |
| Spotify.DistinctIdsDistinctUris | lib/music_services/spotifyDef.js:240-249 | two tracks with different ids are queued under different URIs |
| Spotify.TracksOf | lib/music_services/spotifyDef.js:244-249 | one queued track per kept entry, in order |
| Spotify.TrackList | lib/music_services/spotifyDef.js:217-260 | the tracks are the kept entries in order, and the adapter never flags an artist session |
| Spotify.SkipScan | lib/music_services/spotifyDef.js:233-237 | the inner loop skips a track exactly when its name equals an earlier kept name or contains `karaoke` while some track is already kept |
| Spotify.LoadTracks | lib/music_services/spotifyDef.js:217-260 | the reduce computes exactly the track list `TrackList` defines |
| Spotify.KeptPrefix | lib/music_services/spotifyDef.js:226-256 | one more reply entry is kept exactly when it is available in the market and not skipped |
| Spotify.TracksOfSnoc | lib/music_services/spotifyDef.js:244-249 | one more kept entry adds one queued track at the end |
| Spotify.KeptItemsLast | lib/music_services/spotifyDef.js:226-256 | the last reply entry is kept exactly when it is available and not skipped |
| Spotify.KeptDistinctNames | lib/music_services/spotifyDef.js:233-237 | no two kept tracks share a name |
| Spotify.KaraokeOnlyFirst | lib/music_services/spotifyDef.js:233-237 | only the first kept track can have `karaoke` in its name, because the scan starts only once a track is kept |
| Spotify.KeptAvailable | lib/music_services/spotifyDef.js:228-230 | every kept track comes from the reply and is available in the country's market (or lists no markets) |
| Spotify.KeptComplete | lib/music_services/spotifyDef.js:228-239 | every available track without `karaoke` in its name is represented by a kept track of the same name |
| Spotify.IsEmpty | lib/music_services/spotifyDef.js:262-276 | a reply is empty exactly when its list for the type (albums, tracks, artists or playlists) has no items |
| Spotify.Session.constructor | lib/music_services/spotifyDef.js:7-15 | the credentials come from the settings, and nothing is bound or authenticated yet |
| Spotify.Session.SetService | lib/music_services/spotifyDef.js:146-151 | the service id and type come from the player under the name `Spotify`, the serial number and country are bound, and the account id is dropped |
| Spotify.Session.Credentials | lib/music_services/spotifyDef.js:65-77 | the basic credentials exist exactly when both the client id and the secret are non-empty, and are `id:secret` |
| Spotify.Session.TokenHeader | lib/music_services/spotifyDef.js:104-111 | a header exists exactly when a token is held, and is `Bearer` followed by the token |
| Spotify.Session.AuthenticateService | lib/music_services/spotifyDef.js:91-123 | missing credentials throw before any request; otherwise one token request is made, a reply stores its token, and a failure rejects with the client id in the message and keeps the old token |
| Spotify.Adapter | lib/music_services/spotifyDef.js:17-53 | the Spotify adapter appends the market as `&market=`; its entries are the functions of this module, with the corrected compilation prefix |
| Spotify.GetSearchTerm | lib/music_services/spotifyDef.js:153-169 | the term decodes back to the joined `album:`, `artist:`, `track:` query |
| Spotify.SearchUrl | lib/music_services/spotifyDef.js:19-24 | the URL of album, song, station and playlist starts with the Spotify search endpoint `https://api.spotify.com/v1/search?type=`; `load` has no entry and reads `undefined` |
| Spotify.GetMetadata | lib/music_services/spotifyDef.js:171-181 | the DIDL-Lite item with its parent, class and token; stated by `MetadataHidesTitle` |
| Library.MetadataNamesItem | lib/music_services/libraryDef.js:81-90 | the metadata names its item: different ids of the same length give different metadata |
| Library.SearchTermFields | lib/music_services/libraryDef.js:70-79 | the term is the artist and the wanted field (the album for an album search, the track otherwise) joined by a space, or that field alone when there is no artist |
| Library.UriAndMetadata | lib/music_services/libraryDef.js:92-94 | the answer is the first hit's URI and metadata |
| Library.PlayableUnlessEmpty | lib/music_services/libraryDef.js:92-94 | both directions: there is a uri and metadata exactly when the hit list is not empty; without a hit, reading `resList[0].uri` throws |
| Library.NameStillKept | lib/music_services/libraryDef.js:111-115 | a name once kept stays kept as more tracks are kept |
| Library.Picked | lib/music_services/libraryDef.js:103-132 | the reduce keeps at most the queue limit of tracks, and only tracks from the hits |
| Library.PickedLast | lib/music_services/libraryDef.js:107-131 | the last hit is kept exactly when fewer than the limit are kept and it is not skipped |
| Library.PickedSongsDistinct | lib/music_services/libraryDef.js:111-115 | a song search never keeps two tracks with the same name |
| Library.PickedSameAlbum | lib/music_services/libraryDef.js:116-118 | any other search keeps only tracks of the first hit's album |
| Library.PickedAllOfAlbum | lib/music_services/libraryDef.js:116-119 | within the queue limit, an album search keeps every track of that album |
| Library.PickedAllNames | lib/music_services/libraryDef.js:111-119 | within the queue limit, a song search keeps a track of every name found |
| Library.ToTrack | lib/music_services/libraryDef.js:120-126 | a queued track keeps the hit's name, artist and URI |
| Library.ToTracks | lib/music_services/libraryDef.js:120-126 | one queued track per kept hit, in order |
| Library.OrderAntisymmetric | lib/music_services/libraryDef.js:135-141 | swapping the arguments of the album comparator negates its answer |
| Library.OrderAtMostZero | lib/music_services/libraryDef.js:135-141 | for numbered tracks, the comparator allows `a` before `b` exactly when `a`'s artist sorts before `b`'s, or the artists match and `a`'s track number is not larger |
| Library.OrderTransitive | lib/music_services/libraryDef.js:135-141 | for numbered tracks the comparator's order is transitive |
| Library.InsertByOrder | lib/music_services/libraryDef.js:135-141 | inserting a track by the comparator adds exactly that track |
| Library.SortByOrder | lib/music_services/libraryDef.js:134-142 | sorting by the comparator is a permutation |
| Library.OrderedCons | lib/music_services/libraryDef.js:135-141 | both directions: a list is ordered exactly when its head may precede every later track and its tail is ordered |
| Library.InsertBefore | lib/music_services/libraryDef.js:135-141 | a track that may precede a list and the inserted track may still precede the result |
| Library.InsertKeepsOrder | lib/music_services/libraryDef.js:135-141 | inserting a numbered track into an ordered list of numbered tracks keeps it ordered |
| Library.SortOrdered | lib/music_services/libraryDef.js:134-142 | sorting numbered tracks gives tracks ordered by artist, then by track number |
| Library.TrackList | lib/music_services/libraryDef.js:96-145 | the adapter never flags an artist session; the tracks are a permutation of the kept hits, and in the order of the hits for every type other than album |
| Library.AlbumInOrder | lib/music_services/libraryDef.js:134-142 | an album's tracks come back ordered by artist, then by track number |
| Library.NameTaken | lib/music_services/libraryDef.js:112-115 | the inner loop finds a duplicate exactly when the name is already kept |
| Library.PickedPrefix | lib/music_services/libraryDef.js:107-131 | one more hit is kept exactly when fewer than the limit are kept and it is not skipped |
| Library.ToTracksAppend | lib/music_services/libraryDef.js:120-127 | one more kept hit adds one queued track at the end |
| Library.PickTracks | lib/music_services/libraryDef.js:103-132 | the reduce with its inner loop keeps exactly the hits `Picked` defines, and the count is their number |
| Library.LoadTracks | lib/music_services/libraryDef.js:96-145 | the method returns exactly the track list `TrackList` defines |
| Library.Adapter | lib/music_services/libraryDef.js:21-57 | the library adapter adds no country to its searches |
| Library.GetSearchTerm | lib/music_services/libraryDef.js:70-79 | the artist and the wanted field; stated by `SearchTermFields` |
| Library.GetMetadata | lib/music_services/libraryDef.js:81-90 | the metadata opens the DIDL-Lite item with the id |
| Library.SearchUrl | lib/music_services/libraryDef.js:23-27 | albums, songs and stations have the empty search URL, every other type `undefined` |
| Library.Order | lib/music_services/libraryDef.js:135-141 | the album comparator; stated by `OrderAntisymmetric`, `OrderTransitive` and `OrderAtMostZero` |
| LibraryIndex.MetadataIdDropsScheme | lib/music_services/libraryDef.js:184 | the metadata id is `S:` followed by the URI after its first ':' |
| LibraryIndex.MetadataIdWithoutScheme | lib/music_services/libraryDef.js:184 | a URI without ':' is kept whole behind `S:`, since `indexOf` answers -1 |
| LibraryIndex.Entry | lib/music_services/libraryDef.js:184-195 | the stored entry keeps the track's title, artist, album, track number and URI |
| LibraryIndex.Indexed | lib/music_services/libraryDef.js:182-197 | a page adds at most one entry per track |
| LibraryIndex.IndexedExactly | lib/music_services/libraryDef.js:182-197 | both directions: a page stores an entry for every track with a URI, an artist and an album, and for nothing else |
| LibraryIndex.Absorb | lib/music_services/libraryDef.js:182-200 | folding a page in keeps the version, and takes over the page's total |
| LibraryIndex.FirstChunkIdle | lib/music_services/libraryDef.js:169-179 | the buffer handed to the page handler first leaves it unchanged and asks for the page at 0 |
| LibraryIndex.Pages | lib/music_services/libraryDef.js:181-220 | the first browse request of a walk is at the offset it starts from |
| LibraryIndex.PagesStep | lib/music_services/libraryDef.js:217-219 | a page that is not the last one is followed by the browse at the next start index |
| LibraryIndex.WalkAdvance | lib/music_services/libraryDef.js:217-219 | one more page that goes on leaves the remaining walk the same, with its request recorded |
| LibraryIndex.PagesLast | lib/music_services/libraryDef.js:203-219 | a walk stops at an unanswered request, at a failed browse, or at the final page, which is folded in |
| LibraryIndex.PagesShape | lib/music_services/libraryDef.js:199-219 | every request after the first starts where the previous page ended; every page before the last said there was more; the walk ends at the first finished page, the first failure, or when no reply is left |
| LibraryIndex.PagesAccumulate | lib/music_services/libraryDef.js:181-220 | the buffer holds exactly the entries of the pages consumed, in order; its count is the sum of theirs, and its version never changes |
| LibraryIndex.SliceTo | lib/music_services/libraryDef.js:262 | `slice(0, limit)` keeps a prefix, of the limit's length when the limit is not negative and smaller than the list |
| LibraryIndex.Index.constructor | lib/music_services/libraryDef.js:9-18 | no load runs, no library is held, and neither index is built |
| LibraryIndex.Index.Adapter | lib/music_services/libraryDef.js:21-57 | the adapter uses the queue limit from the settings |
| LibraryIndex.Index.LoadLibrary | lib/music_services/libraryDef.js:161-228 | an overlapping load answers `Loading` and browses nothing. Otherwise the walk's requests are made in order. Only a completed load lowers the flag, settling with the snapshot or the write error; a failed browse and a load still waiting leave the flag raised |
| LibraryIndex.Index.LoadLibrarySearch | lib/music_services/libraryDef.js:230-246 | with a library held and no reload, only the indexes are rebuilt, from its items. Otherwise a load runs; a completed and written load stores the snapshot and builds both indexes from it. An overlapping load stores the text `Loading` and rejects with a TypeError |
| LibraryIndex.Index.HandleLibrary | lib/music_services/libraryDef.js:269-279 | a failed read changes nothing. A snapshot without a version, or older than 1.4, leaves no library. A current one is held and both indexes are built from it. The load flag never changes |
| LibraryIndex.Index.SearchLibrary | lib/music_services/libraryDef.js:259-263 | the term is percent-decoded first. An album search answers the album index's hits. Any other search answers a shuffled selection of the track index's hits, at most the queue limit of them. A missing index throws |
| LibraryIndex.GetChunk | lib/music_services/libraryDef.js:181-200 | the page handler's loop folds the page in exactly as `Absorb` specifies |
| LibraryIndex.IndexedPrefix | lib/music_services/libraryDef.js:182-196 | one more track of a page adds its entry exactly when it is storable |
| LibraryIndex.FirstPage | lib/music_services/libraryDef.js:222-224 | the first hand-over leaves the initial buffer |
| LibraryIndex.Browse | lib/music_services/libraryDef.js:181-224 | the browse loop makes exactly the walk's requests and ends with its buffer and its ending |
| RoomService.DefaultMusicService | lib/room-service-helper.js:10-12 | the default service is never empty: the setting when it is defined and non-empty, `presets` otherwise |
| RoomService.FirstMatch | lib/room-service-helper.js:252-254 | the first valid room equal to the room ignoring case; nothing exactly when no valid room matches |
| RoomService.FindValidRoom | lib/room-service-helper.js:252-254 | the answer is one of the valid rooms and equals the room ignoring case; there is none exactly when no valid rooms are configured or none matches |
| RoomService.CheckDefaults | lib/room-service-helper.js:142-151 | a blank room becomes the default room and a blank service the default service, which is never empty; given values are kept |
| RoomService.LowerArg | lib/room-service-helper.js:49-51 | lower-casing keeps a value blank exactly when it was blank |
| RoomService.ResolvedRoomIsValid | lib/room-service-helper.js:239-246 | the room a request resolves to is undefined or one of the valid rooms, and always undefined when no valid rooms are configured |
| RoomService.FindValidRoomStable | lib/room-service-helper.js:252-254 | looking up a room that was already found gives the same room again |
| RoomService.Helper.constructor | lib/room-service-helper.js:16-34 | the helper keeps the configuration, whether a database pool exists, and the table |
| RoomService.Helper.ChangeCurrent | lib/room-service-helper.js:36-122 | without a pool, or with nothing to change, the values come back unchanged. A failed connection rejects with `An error occurred.`. A known device has the given room and the lower-cased service updated. An unknown device gets a new row, with defaults for the blanks |
| RoomService.Helper.LoadRoomAndService | lib/room-service-helper.js:124-249 | a room not among a non-empty list of valid rooms is rejected as `invalid room <room>`, changing nothing. Otherwise the resolved room is undefined or a valid room. Without a device id or pool, the defaults apply. With a pool, the device's row is read, created with the defaults, or updated when the request names a different room. A connection failure leaves the promise unsettled |
| Settings.Merged | settings.js:6-14 | after a merge the keys are exactly those of the target and the source |
| Settings.Merge | settings.js:6-14 | the recursive merge computes exactly `Merged` |
| Settings.MergedLeafWins | settings.js:10-12 | a non-object value in the source, at any nesting depth, ends up in the result |
| Settings.MergedKeeps | settings.js:6-14 | a target value on a path the source does not reach is kept |
| Settings.MergedIdempotent | settings.js:6-14 | merging the same source a second time changes nothing more |
| Settings.SelfMerge | settings.js:6-14 | merging an object into itself leaves it as it is |
| Settings.LoadedDefaults | settings.js:16-31 | the port is 5005, the secure port 5006 and the announce volume 40, unless settings.json names them, in which case its values are used |
| Settings.Load | settings.js:16-31 | without a settings file the defaults are used; with one, the keys are those of the defaults and of the file |
| SonosApi.Dispatch | lib/sonos-api.js:24-32 | an action the registry holds is called with the player and the values; any other is rejected as `action ' <name>' not found` |
| SonosApi.DispatchAsWritten | lib/sonos-api.js:24-32 | the code as written: a name the registry lacks but `Object.prototype` supplies (such as `constructor`) is looked up on the prototype instead of rejected |
| SonosApi.DispatchAgrees | lib/sonos-api.js:27-31 | the written and the corrected dispatch agree on registered names and on names the prototype does not supply |
| SonosApi.InheritedNameNotRejected | lib/sonos-api.js:27-31 | on an empty registry, `constructor` reaches the prototype as written, where the corrected dispatch rejects it as not found |
| SonosApi.RegisterThenDispatch | lib/sonos-api.js:20-31 | after registering a handler, its name dispatches to it and every other name dispatches as before |
| SonosApi.NotFoundNamesAction | lib/sonos-api.js:28 | the not-found message carries the action's name verbatim after `action ' ` |
| SonosApi.NotFound | lib/sonos-api.js:28 | the message is the action name framed by a fixed prefix and suffix, 20 characters in all |
| SonosApi.Api.constructor | lib/sonos-api.js:11-17 | the API keeps the settings and starts with an empty registry |
| SonosApi.Api.RegisterAction | lib/sonos-api.js:20-22 | the handler is stored under its name, replacing any earlier one, and nothing else changes |
| SonosApi.Api.HandleAction | lib/sonos-api.js:24-32 | a registered action is called with the player and the values; any other name, including one `Object.prototype` supplies, is rejected as not found (the corrected rule of the third finding below) |
| SonosApi.Api.GetPort | lib/sonos-api.js:34-36 | the secure port when `https` is truthy, the plain port otherwise |
| SonosApi.DefaultPorts | lib/sonos-api.js:34-36 | with the loaded settings and no ports in settings.json, the API listens on 5006 with https and on 5005 without |
| SonosRoute.Route | routes/sonos.js:46-72 | a favicon request ends at once; without a discovered zone the request fails with `No sonos system has been discovered.`; a malformed first segment fails; otherwise the action passed on is lower case and no value contains '/' |
| SonosRoute.LowerOf | routes/sonos.js:64-68 | the action name is lower case |
| SonosRoute.RouteToPlayer | routes/sonos.js:59-65 | a path whose decoded first segment names a player dispatches the lower-cased second segment to that player, with the remaining segments as values |
| SonosRoute.RouteToAnyPlayer | routes/sonos.js:59-70 | a path whose first segment names no player dispatches that segment, lower-cased, to any player, with the remaining segments as values |
| SonosRoute.RouteSegments | routes/sonos.js:59 | splitting the path after its leading '/' gives back the segments it was joined from |
| SonosRoute.JoinedNotFavicon | routes/sonos.js:47 | a joined path other than `favicon.ico` is never mistaken for the favicon request |
| AlexaRoute.CutFlattens | routes/sonos-alexa.js:20-34 | the certificates and the lines still open hold every line of the data, in order |
| AlexaRoute.CutWellFormed | routes/sonos-alexa.js:25-31 | every certificate ends at its first END line, and the lines still open contain no END line |
| AlexaRoute.CutCounts | routes/sonos-alexa.js:25-31 | there is one certificate per END line |
| AlexaRoute.Joined | routes/sonos-alexa.js:28 | each group of lines gives one certificate |
| AlexaRoute.GetCerts | routes/sonos-alexa.js:20-34 | the loop returns the cut certificates, each joined by newlines, one per END line |
| AlexaRoute.CheckCertUrl | routes/sonos-alexa.js:36-47 | a refused URL is refused as `invalid url`; an accepted one is fetched as given |
| AlexaRoute.CertUrlAccepted | routes/sonos-alexa.js:41-47 | both directions: the certificate is fetched exactly when the URL is https, on no port or 443, on host `s3.amazonaws.com`, under `/echo.api/` |
| AlexaRoute.IndexZeroIsPrefix | routes/sonos-alexa.js:44 | `indexOf(p) === 0` holds exactly when the path starts with `p` |
| AlexaHandlers.ParseRoomAndGroup | lib/sonos-alexa-handlers.js:1221-1242 | a blank argument names no room and any other argument names a non-empty one. A group is named only when the first `group` ends the argument, does not start it, and the argument has at least 7 characters; the room is then the text before it, minus one separator character. Otherwise the argument is the room |
| AlexaHandlers.ParseGroupOf | lib/sonos-alexa-handlers.js:1230-1235 | a room, one separator and `group` parse back to that room's group, provided `group` does not occur earlier |
| AlexaHandlers.ParsePlainRoom | lib/sonos-alexa-handlers.js:1237-1239 | an argument that does not end with `group` is a room, not a group |
| AlexaHandlers.VolumeHandler | lib/sonos-alexa-handlers.js:1195-1213 | without a room the user is told to specify one, and the API is not called; otherwise `groupVolume` for a group and `volume` for a room, with the parsed room and the volume |
| AlexaHandlers.ToggleHandler | lib/sonos-alexa-handlers.js:1175-1189 | the API is called exactly for `on` and `off`, with the skill name as the action; anything else only answers with the usage message |
| AlexaHandlers.CoordinatorOf | lib/sonos-alexa-handlers.js:1636-1650 | the coordinator of the first zone with a member whose room name equals the room, ignoring case; nothing exactly when no zone has such a member |
| AlexaHandlers.FindCoordinatorForRoom | lib/sonos-alexa-handlers.js:1636-1650 | the nested loops over zones and members compute exactly `CoordinatorOf` |
| AlexaHandlers.Remember | lib/sonos-alexa-handlers.js:1453-1466 | after a lookup the cache holds the room and every room it held before |
| AlexaHandlers.CachedCoordinatorReused | lib/sonos-alexa-handlers.js:1453-1456 | once a non-empty coordinator is cached for a room, later requests for it use the cache and never fetch the zones |
| AlexaHandlers.MissedCoordinatorRetried | lib/sonos-alexa-handlers.js:1457-1466 | a lookup that found no coordinator is retried: the next request fetches the zones again |
| AlexaHandlers.CacheKeepsOtherRooms | lib/sonos-alexa-handlers.js:1463 | a lookup never changes what is cached for another room |
| AlexaHandlers.Handler.constructor | lib/sonos-alexa-handlers.js:36 | the coordinator cache starts empty |
| AlexaHandlers.Handler.ActOnCoordinator | lib/sonos-alexa-handlers.js:1447-1472 | the action and values go to the room's coordinator. The cached coordinator is used when it is truthy; otherwise the zones are queried and the answer, found or not, is cached |
| AlexaHandlers.GetResolvedSlot | lib/sonos-alexa-handlers.js:1618-1633 | no slot gives nothing; a slot the first authority resolved gives that resolution's name; any other slot gives its spoken value |
| AlexaHandlers.CleanSpeech | lib/sonos-alexa-handlers.js:1614-1616 | cleaned speech contains no `&` |
| AlexaHandlers.CleanSpeechLength | lib/sonos-alexa-handlers.js:1614-1616 | each `&` becomes the three letters `and`, so the text grows by two per `&`, and text without `&` is unchanged |
| AlexaHandlers.CleanSpeechConcat | lib/sonos-alexa-handlers.js:1614-1616 | cleaning is applied piece by piece: cleaning a concatenation cleans each part (a consequence of `Text.ReplaceAllConcat`) |
| AlexaHandlers.DoSearch | lib/sonos-alexa-handlers.js:1062-1069 | a `musicSearch` call for the room, with the lower-cased service, the type and the query |
| AlexaHandlers.MusicHandler | lib/sonos-alexa-handlers.js:1075-1088 | `presets` plays the named preset in the room; any other service sends `musicSearch`, with the lower-cased service, the command and the name, to the room's coordinator |
| AlexaHandlers.MoreMusicHandler | lib/sonos-alexa-handlers.js:1093-1113 | it fails, with `The current artist could not be identified.`, exactly when the current track has no artist. Otherwise it plays music by that artist; a station command on a station-capable service adds the title to the name |
| AlexaHandlers.Decimal | lib/sonos-alexa-handlers.js:559-573 | a number is spoken as a non-empty string of decimal digits |
| AlexaHandlers.SleepSeconds | lib/sonos-alexa-handlers.js:546-552 | as written: a request below one day is kept; otherwise the request is either kept or replaced by 86399 seconds, and the result is below one day exactly when the request was, or moment's `days()` component (`MomentDays`) is at least one |
| AlexaHandlers.SleepCappedWithinMonth | lib/sonos-alexa-handlers.js:546-550 | every request from one day up to 31 days becomes 86399 seconds, since there `days()` counts all the whole days |
| AlexaHandlers.MonthWrapUncapped | lib/sonos-alexa-handlers.js:546-550 | a 31-day request carries into one month, leaves `days()` at 0 and is sent uncapped, 2678400 seconds |
| AlexaHandlers.SleepSecondsIntended | lib/sonos-alexa-handlers.js:546-549 | the corrected cap: the sleep time is always below one day; a request below one day is kept and a day or more becomes 86399 seconds |
| AlexaHandlers.SleepSecondsAgree | lib/sonos-alexa-handlers.js:546-550 | the written and the corrected cap agree on every request below 31 days |
| AlexaHandlers.RemainderOfWholeUnits | lib/sonos-alexa-handlers.js:560-570 | the remainder modulo the whole units taken is the remainder modulo one unit |
| AlexaHandlers.TakeUnits | lib/sonos-alexa-handlers.js:557-571 | taking the whole units leaves the remainder modulo the unit, and the two add up to what there was |
| AlexaHandlers.SleepBreakdown | lib/sonos-alexa-handlers.js:552-574 | the days, hours, minutes and seconds add up to the duration, with hours below 24 and minutes and seconds below 60, and the message spells them out |
| AlexaHandlers.SleepMessageEmpty | lib/sonos-alexa-handlers.js:553-574 | both directions: the message is empty exactly when every part is zero |
| AlexaHandlers.SleepMessage | lib/sonos-alexa-handlers.js:552-574 | the spoken sleep time; stated by `SleepMessageEmpty` and `SleepBreakdown` |
| AlexaHandlers.SearchRequest | lib/sonos-alexa-handlers.js:207-218 | a `search` call for the room with the type `song` and a query that starts with `track:` and the title |
| AlexaHandlers.CandidatesPrefix | lib/sonos-alexa-handlers.js:236-254 | the candidates offered are the results from the start, in order, at most eight, none of them the requested track |
| AlexaHandlers.CandidatesStop | lib/sonos-alexa-handlers.js:238-254 | the scan stops at the first requested track, which is the result after the candidates; without one it stops at the end or after eight |
| AlexaHandlers.CollectCandidates | lib/sonos-alexa-handlers.js:232-254 | the loop collects exactly the candidates, the numbered message and the found track that `CandidatesFrom` defines |
| AlexaHandlers.AfterSearch | lib/sonos-alexa-handlers.js:218-267 | no results gives `Sorry, no matches`. A track played is one of the results: the only one, or the requested one. A question offers at most eight results from the start, none of them the requested one |
| AlexaHandlers.FoundTrackIgnored | lib/sonos-alexa-handlers.js:256-264 | with the requested track second, the code as written plays the first result, where the corrected step plays the requested one |
| AlexaHandlers.AfterSearchAgrees | lib/sonos-alexa-handlers.js:218-267 | the written and the corrected step agree whenever no requested track is found or the first result is the one requested |
| AlexaHandlers.AfterSearchAsWritten | lib/sonos-alexa-handlers.js:218-267 | the code as written: no results gives no match, otherwise the first result is played |
| AlexaHandlers.SelectTrack | lib/sonos-alexa-handlers.js:182-190 | a selection is accepted exactly when it is between 1 and the number of candidates, and picks that candidate; otherwise the user is told `Next time select a valid track number, bonehead.` |
| AlexaHandlers.AskThenSelect | lib/sonos-alexa-handlers.js:182-190 | after a question, selecting number `n` plays the `n`-th search result |
| Text.IndexOfFrom | lib/actions/musicSearch.js:52-59 | `indexOf` answers the first occurrence at or after the start, or -1 exactly when there is none |
| Text.Substring | lib/actions/musicSearch.js:58-59 | `substring` answers the slice between two in-range indices, and never more than the string |
| Text.Lower | lib/actions/musicSearch.js:236 | `toLowerCase` maps each character and keeps the length |
| Text.LowerIdempotent | lib/room-service-helper.js:253 | lower-casing twice is lower-casing once |
| Text.Split | lib/actions/musicSearch.js:99-108 | `split` on a character gives at least one part, and no part contains the separator |
| Text.SplitJoin | routes/sonos.js:59 | joining the parts of a split with the separator gives back the string |
| Text.JoinSplit | routes/sonos.js:59 | splitting a join of separator-free parts gives back the parts |
| Text.Trim | lib/actions/musicSearch.js:119 | `trim` removes only leading and trailing white space: the answer is a slice `s[a..b]` of the string, everything before `a` and from `b` on is white space, and the answer neither starts nor ends with white space |
| Text.ReplaceAll | lib/sonos-alexa-handlers.js:1615 | the global replace leaves no occurrence of the character when the replacement has none, changes nothing when there is none, and on a single character gives the replacement exactly when it is that character |
| Text.ReplaceAllConcat | lib/sonos-alexa-handlers.js:1615 | the global replace of a concatenation is the concatenation of the replaced parts |
| Text.Utf8 | lib/music_services/spotifyDef.js:166 | each character encodes to between one and four bytes |
| Text.PercentDecode | lib/actions/musicSearch.js:86 | `decodeURIComponent` fails only with `URIError: URI malformed` |
| Text.PercentEncode | lib/music_services/spotifyDef.js:166 | `encodeURIComponent`; stated by `DecodeEncode`, `EncodedChars` and `EncodeUnreserved` |
| Text.DecodeEncode | lib/actions/musicSearch.js:86 | `decodeURIComponent` inverts `encodeURIComponent` on every string |
| Text.DecodePlain | routes/sonos.js:60 | a string without '%' decodes to itself |
| Text.EncodedChars | routes/sonos.js:60 | an encoding holds only unreserved characters, and '%' and upper-case hexadecimal digits (`0`-`9`, `A`-`F`) |
| Text.EncodeUnreserved | lib/music_services/spotifyDef.js:166 | a string of unreserved characters encodes to itself |
| Text.StrLessIrreflexive | lib/actions/musicSearch.js:201 | the string order of `sort` never puts a string before itself |
| Text.StrLessTransitive | lib/actions/musicSearch.js:201 | the string order is transitive |
| Text.StrLessTotal | lib/actions/musicSearch.js:201 | of two different strings, one sorts before the other |
| Text.StrLessAsymmetric | lib/music_services/libraryDef.js:137 | two strings never both sort before each other |

## Left out

- Network calls are parameters. This covers `request-promise` to ipinfo.io, the Spotify token endpoint and `/status/accounts`, the https fetch of the signing certificate with its data chunking, and `http.get` to the amplifier.
- `lib/music_services/appleDef.js` and `lib/music_services/deezerDef.js` are not part of this model. Their place is the adapter interface `Catalog.Adapter`, which the Spotify and library adapters instantiate.
- Spotify.Session.Credentials: gives the `id:secret` pair. It does not model the Base64 encoding of that pair into the Basic header, because the header is an opaque string to everything downstream.
- Text.Lower: `toLowerCase` is modelled on ASCII letters only. Other characters are kept, without Unicode case mapping.
- Text.StrLess: the default `sort()` order is modelled as lexicographic order of characters, not of UTF-16 code units beyond the basic plane.
- Library.Adapter: its contract states only that the library adds no country suffix. Its other entries are the `Library` functions, whose contracts carry the properties.
- Fuse.js fuzzy matching in `libraryDef.js` is a function parameter of `LibraryIndex`: the model states what is done with its answer, not how it ranks.
- `Math.random` shuffles are an arbitrary permutation, given as a parameter and constrained to keep the multiset of tracks.
- The JavaScript `sort` with a comparator is modelled by a stable insertion sort. Its result is the comparator's order, which is what the code relies on. The engine's algorithm is not modelled.
- Track titles and artist names are always present strings. A catalog entry with a missing field is outside the model.
- Each adapter has one reply type. The JSON shapes of the Spotify and library replies are modelled as datatypes, not parsed from text.
- The artist-session enqueue runs detached after `play`. It is modelled as the commands appended after `Play`. Its timing and its interleaving with other requests are not modelled.
- The library snapshot file (`library.json`) is an input when read and an output when written. The logger is left out.
- LibraryIndex.Index.LoadLibrary: a browse whose pages run out before the library is complete leaves the load pending, as the unresolved promise does. No timeout is modelled.
- The MySQL pool is the `RoomService` table, a map from device id to (room, service) plus a reachable flag. The distinct select and query errors collapse into one error.
- `url.parse` of the certificate URL is replaced by the explicit scheme, host, port and path fields the validator compares. The crypto signature verification is left out.
- `loadActions` and require-dir discovery, `sendResponse` and the Express wiring, and basic authentication are left out. The registry is filled by `SonosApi.Api.RegisterAction`.
- MusicSearch.Search: the catalog's search reply is a parameter for every service, the library included. For the library the code gets it in-process from `searchLibrary` (`lib/music_services/libraryDef.js:259-263`), which `LibraryIndex.Index.SearchLibrary` models; the two are not composed, so the action does not promise that the library reply is the index's answer. The same holds for SearchAction.Search.
- Spotify.Adapter: its contract states only the `&market=` suffix; the other entries are this module's functions, listed in its body. Its `urimeta` is the corrected `Spotify.UriAndMetadata` of the first finding, so a compilation album is queued under the collection prefix where the code writes `undefined`; `Spotify.UriAndMetadataAsWritten` keeps the written behaviour.
- SonosApi.Api.HandleAction: dispatches through the corrected `SonosApi.Dispatch` of the third finding, so a name that `Object.prototype` supplies, such as `constructor`, is refused as not found, where the code calls the inherited member; `SonosApi.DispatchAsWritten` keeps the written behaviour.
- AlexaHandlers.Handler.ActOnCoordinator: the coordinator cache `roomCoordinators` is a plain object (`lib/sonos-alexa-handlers.js:36`), so a room named `constructor` (or another `Object.prototype` member) reads an inherited function as its cached coordinator. The model's cache is a map holding only the rooms stored, so that room is looked up like any other.
- Settings.Merged: values are copied, so the aliasing of the merged objects with the source is not modelled. `path.resolve` and the creation of the TTS and cache directories are left out. JSON numbers are integers.
- Settings.Merged requires `Mergeable`. A null source value, and a primitive target value met where the source holds an object, throw part way through in strict mode. Such a partial merge is not modelled. `Mergeable` also excludes an array target value met where the source holds an object: `merge` copies the object's keys into the array without throwing, and the model does not capture that result. No default value is an array, so loading the settings never meets that case.
- AlexaHandlers.SleepBreakdown: takes the duration as whole seconds. It does not model moment's ISO-8601 parsing or the fractional seconds.
- AlexaHandlers.SleepSeconds: takes the request as whole seconds, so a duration given in months or years (`P1M`) is outside the model; `MomentDays` is moment's duration arithmetic (days carried into months of 146097/4800 days, rounded up), which is a library and not part of this repository.
- The Alexa SDK (`emit`, `speak`, `elicitSlot`) becomes the reply datatypes of `AlexaHandlers`. The random message lists are left out. The selected track number is an integer.
- The other Alexa intents are left out because they only forward to actions outside this core:
  - AlbumIntent, ArtistIntent, TrackIntent and MusicRadioIntent go through `MusicHandler`, which is modelled.
  - SiriusXM, Pandora, Preset, Playlist and Favorite forward to the `siriusXM`, `pandora`, `preset`, `playlist` and `favorite` actions.
  - ChangeRoom, ChangeService and ChangeRoomAndService delegate a missing slot to the dialog, then call the handlers' own `changeCurrent`, whose table rules are those of `RoomService.Helper.ChangeCurrent`.
  - Pause, Resume, SleepOff, volume up and down, Next, Previous, WhatsPlaying, Mute, ClearQueue, Repeat, Shuffle, Crossfade, Ungroup and JoinGroup are single forwards.
  - The amplifier intents and `sendAmpCommand` use an HTTP call to the amplifier.
- The handlers' own copies of `changeCurrent` and `loadRoomAndService` (`lib/sonos-alexa-handlers.js:1248-1446`) repeat `lib/room-service-helper.js`, which is modelled in `RoomService`. The helpers `siriusXMHandler`, `pandoraHandler`, `playlistHandler`, `sonosAction`, `speak`, `ok` and `error` are single forwards.
- Mute, volume, seek, favorite, playlist, nextprevious, clearqueue, reindex, state, services, setavtransporturi, playpause and preset are one-line forwards to the device and are left out.
- TTS providers, say and clip announcements, presets loading, smart plugs, amplifier routes, lockvolumes, siriusXM and the Google endpoint are outside this core.

Where the code and its description disagree, the model follows the code. The exception is the four defects under "## Findings": each is modelled as written by its as-written member, and the rest of the model uses the corrected definition. The disagreements the model keeps as written:

- `trackPos` and `artistPos` are never assigned, so `searchType` is always 0 and the distinct-count ratio always decides whether a result is an artist session.
- The library loader does not clear `isLoading` when a browse fails, so later loads answer that a load is in progress.
- An overlapping `loadLibrarySearch` stores the string `'Loading'` as the library and then fails reading a field of it, instead of answering `'Loading'`.
- The Spotify token is fetched again on every search. There is no expiry cache.
- `routes/sonos.js:29` calls a bare `requestHandler`, and lines 55, 81 and 84 (the zone error, the success reply and the error reply) call `sendResponse` without the response object. The model parses the path as `requestHandler` does.
- In `loadRoomAndService` the `service` local is still blank at `lib/room-service-helper.js:237`. So with a device id and a pool the stored row is always read, and the branch at line 242 is never taken.

## Findings

| source | as written | input that shows it | evidently intended | confidence | as-written member | corrected member |
|---|---|---|---|---|---|---|
| lib/music_services/spotifyDef.js:207-208 | the parent id of a compilation album reads `parent.compilation`, which the prefix table does not define, so the id starts with `undefined` | an album search whose first album has `album_type` `compilation` | the parent prefix of the `collection` entry, as for other albums | not executed | Spotify.CompilationParentAsWritten | Spotify.CompilationParentCorrected |
| lib/sonos-alexa-handlers.js:259-263 | after the search, the intent plays `track`, the first result, and ignores `foundTrack` | tracks [A, B] where only B matches the requested title and artist | play the track whose title and artist matched | not executed | AlexaHandlers.FoundTrackIgnored | AlexaHandlers.AfterSearch |
| lib/sonos-api.js:27-31 | an action name is looked up on a plain object, so a name that `Object.prototype` supplies, such as `constructor`, is found and called instead of being refused as unknown | the path `/Kitchen/constructor` | refuse every name that was not registered | not executed | SonosApi.InheritedNameNotRejected | SonosApi.Dispatch |
| lib/sonos-alexa-handlers.js:546-550 | the cap tests moment's `days()` component, which is what is left after whole days carry into months, so a request of a month's worth of days or more is sent as it is and the "Shouldn't hit this" days branch speaks it | the duration slot `P31D`, 31 days: `days()` is 0, so 2678400 seconds are sent | cap every request of a day or more at 86399 seconds, as the comment above the test says | not executed | AlexaHandlers.MonthWrapUncapped | AlexaHandlers.SleepSecondsIntended |
