/** The library index of lib/music_services/libraryDef.js: the module
    state (`isLoading`, `musicLibrary`, the two fuzzy indexes), the paged
    load of every track of the device's music library, the snapshot read
    back from disk, and the fuzzy search over the index.

    The device's `browse` replies are inputs, one per request in order; the
    outcome of writing the snapshot file is an input; the fuzzy matcher is a
    function parameter. A load whose replies run out is still waiting. */
module LibraryIndex {
  import opened Wrappers
  import opened Text
  import opened Catalog
  import opened Shuffle
  import opened Library

  /** One track of a `browse('A:TRACKS', …)` page; the URI, artist and
      album may be absent. */
  datatype BrowseItem = BrowseItem(
    title: string,
    artist: Option<string>,
    album: Option<string>,
    albumTrackNumber: Option<int>,
    uri: Option<string>)

  /** One page of the browse. */
  datatype Chunk = Chunk(startIndex: int, numberReturned: int, totalMatches: int, items: seq<BrowseItem>)

  /** The library snapshot: its format version and the `tracks` buffer the
      pages accumulate into. */
  datatype Snapshot = Snapshot(version: Option<real>, items: seq<IndexItem>, startIndex: int,
                               numberReturned: int, totalMatches: int)

  const CurrentVersion: real := 1.4

  /** The snapshot a load starts from. */
  const Initial: Snapshot := Snapshot(Some(CurrentVersion), [], 0, 0, 1)

  /** The first page is the buffer itself: no items, none returned, one
      match expected. */
  const FirstChunk: Chunk := Chunk(0, 0, 1, [])

  // ---------------------------------------------------------------------
  // Pages
  // ---------------------------------------------------------------------

  /** `isFinished`. */
  predicate IsFinished(chunk: Chunk) {
    chunk.startIndex + chunk.numberReturned >= chunk.totalMatches
  }

  /** Where the next page starts. */
  function NextStart(chunk: Chunk): int {
    chunk.startIndex + chunk.numberReturned
  }

  /** Only tracks with a URI, an artist and an album are stored. */
  predicate Storable(item: BrowseItem) {
    item.uri.Some? && item.artist.Some? && item.album.Some?
  }

  /** The metadata id: `S:` and the URI after its first ':' (all of it when
      there is none). */
  function MetadataId(uri: string): string {
    "S:" + Substring(uri, IndexOf(uri, ":", 0) + 1, |uri|)
  }

  /** The id drops the URI's scheme. */
  lemma MetadataIdDropsScheme(scheme: string, rest: string)
    requires ':' !in scheme
    ensures MetadataId(scheme + ":" + rest) == "S:" + rest
  {
    var uri := scheme + ":" + rest;
    assert uri[|scheme|..|scheme| + 1] == ":";
    forall k | 0 <= k < |scheme| ensures !OccursAt(uri, ":", k) {
      assert uri[k] == scheme[k];
    }
    assert OccursAt(uri, ":", |scheme|);
    var at := IndexOfFrom(uri, ":", 0);
    assert at != -1 && at <= |scheme|;
    assert IndexOf(uri, ":", 0) == |scheme|;
    assert uri[|scheme| + 1..] == rest;
  }

  /** A URI without ':' is kept whole. */
  lemma MetadataIdWithoutScheme(uri: string)
    requires ':' !in uri
    ensures MetadataId(uri) == "S:" + uri
  {
    forall k | 0 <= k && k + 1 <= |uri| ensures !OccursAt(uri, ":", k) {
      assert uri[k..k + 1][0] == uri[k];
    }
    assert IndexOf(uri, ":", 0) == -1;
  }

  /** The index entry stored for a storable track. */
  function Entry(item: BrowseItem): (r: IndexItem)
    requires Storable(item)
    ensures r.trackName == item.title && r.artistName == item.artist.value && r.albumName == item.album.value
    ensures r.uri == item.uri.value && r.albumTrackNumber == item.albumTrackNumber
  {
    var artist, album, uri := item.artist.value, item.album.value, item.uri.value;
    IndexItem(artist + " " + item.title, artist + " " + album, item.title, artist, album, item.albumTrackNumber, uri,
              GetMetadata(Song, MetadataId(uri), PercentEncode(artist) + "/" + PercentEncode(album)))
  }

  /** The entries a page adds, in order. */
  function Indexed(items: seq<BrowseItem>): (r: seq<IndexItem>)
    ensures |r| <= |items|
    decreases |items|
  {
    if items == [] then []
    else
      var prev := Indexed(items[..|items| - 1]);
      var last := items[|items| - 1];
      if Storable(last) then prev + [Entry(last)] else prev
  }

  /** A page stores an entry for every storable track of it and for
      nothing else. */
  lemma {:induction false} IndexedExactly(items: seq<BrowseItem>)
    ensures forall x :: x in items && Storable(x) ==> Entry(x) in Indexed(items)
    ensures forall y :: y in Indexed(items) ==> exists x :: x in items && Storable(x) && y == Entry(x)
    decreases |items|
  {
    if items != [] {
      var init := items[..|items| - 1];
      var last := items[|items| - 1];
      IndexedExactly(init);
      assert items == init + [last];
      forall y | y in Indexed(items) ensures exists x :: x in items && Storable(x) && y == Entry(x) {
        if y in Indexed(init) {
          var x :| x in init && Storable(x) && y == Entry(x);
          assert x in items;
        } else {
          assert last in items && Storable(last) && y == Entry(last);
        }
      }
    }
  }

  /** The page folded into the buffer: its entries (as `index` makes
      them) appended, its count added, its total taken over. */
  function Absorb(acc: Snapshot, chunk: Chunk, index: seq<BrowseItem> -> seq<IndexItem>): (r: Snapshot)
    ensures r.version == acc.version && r.startIndex == acc.startIndex
    ensures r.totalMatches == chunk.totalMatches
  {
    acc.(items := acc.items + index(chunk.items),
         numberReturned := acc.numberReturned + chunk.numberReturned,
         totalMatches := chunk.totalMatches)
  }

  /** Handing the buffer to itself changes nothing and asks for the page
      at 0. */
  lemma FirstChunkIdle()
    ensures Absorb(Initial, FirstChunk, Indexed) == Initial
    ensures !IsFinished(FirstChunk) && NextStart(FirstChunk) == 0
  {
  }

  /** How a load ended: the last page was in, a browse failed, or the
      replies ran out while a request was pending. */
  datatype End = Complete | BrowseError(error: string) | NoReply

  /** A load's end, its buffer at that point, and the start index of every
      browse request, in order. */
  datatype Walk = Walk(end: End, library: Snapshot, requests: seq<int>)

  /** The pages from the request at `offset`, answered by `replies[i]`,
      on. The walk is stated for any conversion `index` of a page's tracks
      into entries; a load uses `Indexed`. */
  function Pages(acc: Snapshot, offset: int, replies: seq<Result<Chunk, string>>, i: nat,
                 index: seq<BrowseItem> -> seq<IndexItem>): (w: Walk)
    requires i <= |replies|
    ensures |w.requests| >= 1 && w.requests[0] == offset
    decreases |replies| - i
  {
    if i == |replies| then Walk(NoReply, acc, [offset])
    else match replies[i]
      case Err(e) => Walk(BrowseError(e), acc, [offset])
      case Ok(chunk) =>
        if IsFinished(chunk) then Walk(Complete, Absorb(acc, chunk, index), [offset])
        else
          var w := Pages(Absorb(acc, chunk, index), NextStart(chunk), replies, i + 1, index);
          Walk(w.end, w.library, [offset] + w.requests)
  }

  /** One page of a walk that goes on: its request, then the walk from the
      next start index. */
  lemma PagesStep(acc: Snapshot, offset: int, replies: seq<Result<Chunk, string>>, i: nat,
                  index: seq<BrowseItem> -> seq<IndexItem>)
    requires i < |replies| && replies[i].Ok? && !IsFinished(replies[i].value)
    ensures Pages(acc, offset, replies, i, index)
      == Extend([offset], Pages(Absorb(acc, replies[i].value, index), NextStart(replies[i].value), replies, i + 1, index))
  {
  }

  /** The loop of a load after one more page that goes on. */
  lemma WalkAdvance(requests: seq<int>, acc: Snapshot, offset: int, replies: seq<Result<Chunk, string>>, i: nat,
                    index: seq<BrowseItem> -> seq<IndexItem>, next: Snapshot)
    requires i < |replies| && replies[i].Ok? && !IsFinished(replies[i].value)
    requires next == Absorb(acc, replies[i].value, index)
    ensures Extend(requests, Pages(acc, offset, replies, i, index))
      == Extend(requests + [offset], Pages(next, NextStart(replies[i].value), replies, i + 1, index))
  {
    PagesStep(acc, offset, replies, i, index);
    ExtendTwice(requests, [offset], Pages(next, NextStart(replies[i].value), replies, i + 1, index));
  }

  /** The last request of a walk: unanswered, failed, or the final page. */
  lemma PagesLast(acc: Snapshot, offset: int, replies: seq<Result<Chunk, string>>, i: nat,
                  index: seq<BrowseItem> -> seq<IndexItem>)
    requires i <= |replies| && !(i < |replies| && replies[i].Ok? && !IsFinished(replies[i].value))
    ensures Pages(acc, offset, replies, i, index) ==
      if i == |replies| then Walk(NoReply, acc, [offset])
      else if replies[i].Err? then Walk(BrowseError(replies[i].error), acc, [offset])
      else Walk(Complete, Absorb(acc, replies[i].value, index), [offset])
  {
  }

  /** `w` after the requests `rq`. */
  function Extend(rq: seq<int>, w: Walk): Walk {
    Walk(w.end, w.library, rq + w.requests)
  }

  lemma ExtendNothing(w: Walk)
    ensures Extend([], w) == w
  {
    assert [] + w.requests == w.requests;
  }

  lemma ExtendTwice(a: seq<int>, b: seq<int>, w: Walk)
    ensures Extend(a, Extend(b, w)) == Extend(a + b, w)
  {
    assert a + (b + w.requests) == (a + b) + w.requests;
  }

  /** How many replies a walk consumed whole. */
  function Consumed(w: Walk): int {
    if w.end.Complete? then |w.requests| else |w.requests| - 1
  }

  /** Each request after the first starts where the previous page ended,
      and every page before the last said there was more; the walk stops at
      the first finished page, the first failed browse, or when no reply is
      left. */
  lemma {:induction false} PagesShape(acc: Snapshot, offset: int, replies: seq<Result<Chunk, string>>, i: nat,
                                      index: seq<BrowseItem> -> seq<IndexItem>)
    requires i <= |replies|
    ensures var w := Pages(acc, offset, replies, i, index);
      && i + |w.requests| <= |replies| + 1
      && (forall j :: i <= j < i + |w.requests| - 1 ==>
            replies[j].Ok? && !IsFinished(replies[j].value) && w.requests[j - i + 1] == NextStart(replies[j].value))
      && (w.end.Complete? ==> (i + |w.requests| <= |replies| && replies[i + |w.requests| - 1].Ok?
            && IsFinished(replies[i + |w.requests| - 1].value)))
      && (w.end.BrowseError? ==> (i + |w.requests| <= |replies| && replies[i + |w.requests| - 1] == Err(w.end.error)))
      && (w.end.NoReply? ==> i + |w.requests| == |replies| + 1)
    decreases |replies| - i
  {
    if i < |replies| && replies[i].Ok? && !IsFinished(replies[i].value) {
      var chunk := replies[i].value;
      var w' := Pages(Absorb(acc, chunk, index), NextStart(chunk), replies, i + 1, index);
      PagesShape(Absorb(acc, chunk, index), NextStart(chunk), replies, i + 1, index);
      var w := Pages(acc, offset, replies, i, index);
      assert w.requests == [offset] + w'.requests;
      forall j | i <= j < i + |w.requests| - 1
        ensures replies[j].Ok? && !IsFinished(replies[j].value) && w.requests[j - i + 1] == NextStart(replies[j].value)
      {
        if j > i {
          assert w.requests[j - i + 1] == w'.requests[j - (i + 1) + 1];
        }
      }
    }
  }

  /** The entries of the pages `replies[i..j]`, in order. */
  function Gathered(replies: seq<Result<Chunk, string>>, i: nat, j: nat, index: seq<BrowseItem> -> seq<IndexItem>): seq<IndexItem>
    requires i <= j <= |replies|
    decreases j - i
  {
    if i == j then []
    else (if replies[i].Ok? then index(replies[i].value.items) else []) + Gathered(replies, i + 1, j, index)
  }

  /** The counts the pages `replies[i..j]` report. */
  function Returned(replies: seq<Result<Chunk, string>>, i: nat, j: nat): int
    requires i <= j <= |replies|
    decreases j - i
  {
    if i == j then 0
    else (if replies[i].Ok? then replies[i].value.numberReturned else 0) + Returned(replies, i + 1, j)
  }

  /** The buffer holds exactly the entries of the pages consumed, its count
      is the sum of theirs, and its version never changes. */
  lemma {:induction false} PagesAccumulate(acc: Snapshot, offset: int, replies: seq<Result<Chunk, string>>, i: nat,
                                           index: seq<BrowseItem> -> seq<IndexItem>)
    requires i <= |replies|
    ensures var w := Pages(acc, offset, replies, i, index);
      && 0 <= Consumed(w) && i + Consumed(w) <= |replies|
      && w.library.items == acc.items + Gathered(replies, i, i + Consumed(w), index)
      && w.library.numberReturned == acc.numberReturned + Returned(replies, i, i + Consumed(w))
      && w.library.version == acc.version
    decreases |replies| - i
  {
    if i < |replies| && replies[i].Ok? && !IsFinished(replies[i].value) {
      var chunk := replies[i].value;
      var next := Absorb(acc, chunk, index);
      PagesAccumulate(next, NextStart(chunk), replies, i + 1, index);
      var w' := Pages(next, NextStart(chunk), replies, i + 1, index);
      assert Consumed(Pages(acc, offset, replies, i, index)) == Consumed(w') + 1;
      assert acc.items + index(chunk.items) + Gathered(replies, i + 1, i + 1 + Consumed(w'), index)
          == acc.items + (index(chunk.items) + Gathered(replies, i + 1, i + 1 + Consumed(w'), index));
    }
  }

  /** A load: the page handler is first handed the buffer itself, which
      leaves it as it was (`FirstChunkIdle`), then the pages from the request
      at its next start index on. */
  function LoadWalk(replies: seq<Result<Chunk, string>>): Walk {
    Pages(Initial, NextStart(FirstChunk), replies, 0, Indexed)
  }

  /** How `loadLibrary` settles: `Loading` while another load runs, the
      written snapshot, a failed write, a failed browse, or not yet. */
  datatype LoadOutcome = Busy | Written(library: Snapshot) | WriteFailed(error: string)
                       | BrowseFailed(error: string) | Unsettled

  /** What `musicLibrary` holds: nothing, the text `Loading` that an
      overlapping load hands back, or a snapshot. */
  datatype Stored = NoLibrary | LoadingText | Stored(snapshot: Snapshot)

  /** The two Fuse indexes differ only in their keys. */
  datatype Keys = TrackKeys | AlbumKeys
  datatype FuzzyIndex = FuzzyIndex(keys: Keys, items: seq<IndexItem>)

  /** How `loadLibrarySearch` settles. */
  datatype Settled = Resolved(value: string) | Rejected(error: string) | Pending

  const LibraryAndSearchLoaded: string := "Library and search loaded"
  const LibrarySearchLoaded: string := "Library search loaded"

  /** What reading `tracks.items` off the text `Loading` throws. */
  const NoItems: string := "TypeError: Cannot read property 'items' of undefined"

  /** What calling `search` on an index that was never built throws. */
  const NoIndex: string := "TypeError: Cannot read property 'search' of null"

  /** A snapshot read back is kept only with a version of at least 1.4. */
  predicate Current(s: Snapshot) {
    s.version.Some? && s.version.value >= CurrentVersion
  }

  /** `array.slice(0, end)`: a negative end counts from the back. */
  function SliceTo<T>(s: seq<T>, end: int): (r: seq<T>)
    ensures |r| <= |s| && r == s[..|r|]
    ensures 0 <= end ==> |r| == (if end < |s| then end else |s|)
  {
    var e := if end < 0 then (if |s| + end < 0 then 0 else |s| + end) else (if end < |s| then end else |s|);
    s[..e]
  }

  /** The module state of the library adapter, with the queue limit from
      the settings. */
  class Index {
    const queueLimit: int
    var isLoading: bool
    var musicLibrary: Stored
    var fuzzyTracks: Option<FuzzyIndex>
    var fuzzyAlbums: Option<FuzzyIndex>

    constructor (queueLimit: int)
      ensures this.queueLimit == queueLimit
      ensures !isLoading && musicLibrary == NoLibrary && fuzzyTracks == None && fuzzyAlbums == None
    {
      this.queueLimit := queueLimit;
      isLoading := false;
      musicLibrary := NoLibrary;
      fuzzyTracks, fuzzyAlbums := None, None;
    }

    /** `libIsEmpty`. */
    predicate LibIsEmpty()
      reads this
    {
      musicLibrary.NoLibrary?
    }

    /** The library as the catalog adapter musicsearch and search use. */
    function Adapter(): (r: Catalog.Adapter<seq<IndexItem>>)
      ensures r == Library.Adapter(queueLimit)
    {
      Library.Adapter(queueLimit)
    }

    /** `loadLibrary`. While a load runs it answers `Loading` and asks for
        nothing. Otherwise it raises the flag, hands the buffer to the page
        handler, then browses page after page; only the callback of the
        final file write lowers the flag again, so a failed browse or a
        load still waiting leaves it raised. */
    method LoadLibrary(replies: seq<Result<Chunk, string>>, writeError: Option<string>)
      returns (outcome: LoadOutcome, requests: seq<int>)
      modifies this
      ensures musicLibrary == old(musicLibrary) && fuzzyTracks == old(fuzzyTracks) && fuzzyAlbums == old(fuzzyAlbums)
      ensures old(isLoading) ==> outcome == Busy && requests == [] && isLoading
      ensures !old(isLoading) ==>
        var w := LoadWalk(replies);
        && requests == w.requests
        && (isLoading <==> !w.end.Complete?)
        && (w.end.Complete? ==> outcome == (if writeError.Some? then WriteFailed(writeError.value) else Written(w.library)))
        && (w.end.BrowseError? ==> outcome == BrowseFailed(w.end.error))
        && (w.end.NoReply? ==> outcome == Unsettled)
    {
      if isLoading {
        return Busy, [];
      }
      isLoading := true;
      var end, library;
      end, library, requests := Browse(replies);
      if end == Complete {
        // The write callback lowers the flag before settling.
        isLoading := false;
        outcome := if writeError.Some? then WriteFailed(writeError.value) else Written(library);
      } else if end.BrowseError? {
        outcome := BrowseFailed(end.error);
      } else {
        outcome := Unsettled;
      }
    }

    /** `loadLibrarySearch`. A full load runs when asked for or when no
        library is held; it stores the load's answer, then builds both
        indexes from its items. Otherwise only the indexes are rebuilt.
        Reading items off the text `Loading` rejects. */
    method LoadLibrarySearch(load: bool, replies: seq<Result<Chunk, string>>, writeError: Option<string>)
      returns (r: Settled, requests: seq<int>)
      modifies this
      ensures !(load || old(musicLibrary).NoLibrary?) ==>
        && requests == [] && isLoading == old(isLoading) && musicLibrary == old(musicLibrary)
        && (old(musicLibrary).Stored? ==>
              r == Resolved(LibrarySearchLoaded)
              && fuzzyTracks == Some(FuzzyIndex(TrackKeys, old(musicLibrary).snapshot.items))
              && fuzzyAlbums == Some(FuzzyIndex(AlbumKeys, old(musicLibrary).snapshot.items)))
        && (old(musicLibrary).LoadingText? ==>
              r == Rejected(NoItems) && fuzzyTracks == old(fuzzyTracks) && fuzzyAlbums == old(fuzzyAlbums))
      ensures (load || old(musicLibrary).NoLibrary?) && old(isLoading) ==>
        && requests == [] && isLoading && musicLibrary == LoadingText && r == Rejected(NoItems)
        && fuzzyTracks == old(fuzzyTracks) && fuzzyAlbums == old(fuzzyAlbums)
      ensures (load || old(musicLibrary).NoLibrary?) && !old(isLoading) ==>
        var w := LoadWalk(replies);
        && requests == w.requests
        && (isLoading <==> !w.end.Complete?)
        && (w.end.Complete? && writeError.None? ==>
              && musicLibrary == Stored(w.library) && r == Resolved(LibraryAndSearchLoaded)
              && fuzzyTracks == Some(FuzzyIndex(TrackKeys, w.library.items))
              && fuzzyAlbums == Some(FuzzyIndex(AlbumKeys, w.library.items)))
        && (!(w.end.Complete? && writeError.None?) ==>
              && musicLibrary == old(musicLibrary)
              && fuzzyTracks == old(fuzzyTracks) && fuzzyAlbums == old(fuzzyAlbums)
              && r == (if w.end.Complete? then Rejected(writeError.value)
                       else if w.end.BrowseError? then Rejected(w.end.error) else Pending))
    {
      requests := [];
      if load || musicLibrary.NoLibrary? {
        var outcome;
        outcome, requests := LoadLibrary(replies, writeError);
        match outcome
        case Busy =>
          musicLibrary := LoadingText;
          r := Rejected(NoItems);
        case Written(library) =>
          musicLibrary := Stored(library);
          fuzzyTracks := Some(FuzzyIndex(TrackKeys, library.items));
          fuzzyAlbums := Some(FuzzyIndex(AlbumKeys, library.items));
          r := Resolved(LibraryAndSearchLoaded);
        case WriteFailed(e) =>
          r := Rejected(e);
        case BrowseFailed(e) =>
          r := Rejected(e);
        case Unsettled =>
          r := Pending;
      } else if musicLibrary.LoadingText? {
        r := Rejected(NoItems);
      } else {
        fuzzyTracks := Some(FuzzyIndex(TrackKeys, musicLibrary.snapshot.items));
        fuzzyAlbums := Some(FuzzyIndex(AlbumKeys, musicLibrary.snapshot.items));
        r := Resolved(LibrarySearchLoaded);
      }
    }

    /** `handleLibrary`: a snapshot read back from disk replaces the held
        library; one without a version, or older than 1.4, leaves no
        library at all. A kept one has its indexes rebuilt. A failed read
        changes nothing; text that does not parse throws before any
        change. */
    method HandleLibrary(readFailed: bool, parsed: Result<Snapshot, string>) returns (r: Result<(), string>)
      modifies this
      ensures readFailed ==> (r.Ok? && musicLibrary == old(musicLibrary)
        && fuzzyTracks == old(fuzzyTracks) && fuzzyAlbums == old(fuzzyAlbums))
      ensures !readFailed && parsed.Err? ==> (r == Err(parsed.error) && musicLibrary == old(musicLibrary)
        && fuzzyTracks == old(fuzzyTracks) && fuzzyAlbums == old(fuzzyAlbums))
      ensures !readFailed && parsed.Ok? && !Current(parsed.value) ==>
        r.Ok? && musicLibrary == NoLibrary && fuzzyTracks == old(fuzzyTracks) && fuzzyAlbums == old(fuzzyAlbums)
      ensures !readFailed && parsed.Ok? && Current(parsed.value) ==>
        && r.Ok? && musicLibrary == Stored(parsed.value)
        && fuzzyTracks == Some(FuzzyIndex(TrackKeys, parsed.value.items))
        && fuzzyAlbums == Some(FuzzyIndex(AlbumKeys, parsed.value.items))
      ensures isLoading == old(isLoading)
    {
      if readFailed {
        return Ok(());
      }
      if parsed.Err? {
        return Err(parsed.error);
      }
      if !Current(parsed.value) {
        musicLibrary := NoLibrary;
        return Ok(());
      }
      musicLibrary := Stored(parsed.value);
      var _, _ := LoadLibrarySearch(false, [], None);
      r := Ok(());
    }

    /** `searchLibrary`: an album search answers the album index's hits;
        any other search shuffles the track index's hits and keeps at most
        the queue limit of them. */
    method SearchLibrary(t: MusicType, term: string, fuzzy: (FuzzyIndex, string) -> seq<IndexItem>,
                         pick: nat -> nat) returns (r: Result<seq<IndexItem>, string>)
      requires IsPicker(pick)
      ensures PercentDecode(term).Err? ==> r == Err(UriMalformed)
      ensures PercentDecode(term).Ok? && t == Album ==>
        r == (if fuzzyAlbums.None? then Err(NoIndex) else Ok(fuzzy(fuzzyAlbums.value, PercentDecode(term).value)))
      ensures PercentDecode(term).Ok? && t != Album ==>
        if fuzzyTracks.None? then r == Err(NoIndex)
        else
          var hits := fuzzy(fuzzyTracks.value, PercentDecode(term).value);
          && r == Ok(SliceTo(Shuffled(hits, |hits|, pick), queueLimit))
          && (queueLimit >= 0 ==> |r.value| <= queueLimit)
          && multiset(r.value) <= multiset(hits)
    {
      var decoded := PercentDecode(term);
      if decoded.Err? {
        return Err(decoded.error);
      }
      if t == Album {
        if fuzzyAlbums.None? {
          return Err(NoIndex);
        }
        return Ok(fuzzy(fuzzyAlbums.value, decoded.value));
      }
      if fuzzyTracks.None? {
        return Err(NoIndex);
      }
      var hits := fuzzy(fuzzyTracks.value, decoded.value);
      var shuffled := ShuffleSeq(hits, pick);
      ShuffledPermutes(hits, |hits|, pick);
      var kept := SliceTo(shuffled, queueLimit);
      assert shuffled == kept + shuffled[|kept|..];
      r := Ok(kept);
    }
  }

  /** The page handler's reduce: appends the entry of every storable track
      of the page to the buffer, then adds the page's count and takes over
      its total. */
  method GetChunk(acc: Snapshot, chunk: Chunk) returns (next: Snapshot)
    ensures next == Absorb(acc, chunk, Indexed)
  {
    var stored := acc.items;
    var i := 0;
    while i < |chunk.items|
      invariant 0 <= i <= |chunk.items|
      invariant stored == acc.items + Indexed(chunk.items[..i])
    {
      var item := chunk.items[i];
      IndexedPrefix(chunk.items, i);
      if item.uri.Some? && item.artist.Some? && item.album.Some? {
        StoreOne(acc.items, Indexed(chunk.items[..i]), Entry(item));
        stored := stored + [Entry(item)];
      } else {
        assert Indexed(chunk.items[..i + 1]) == Indexed(chunk.items[..i]) + [];
      }
      i := i + 1;
    }
    assert chunk.items[..i] == chunk.items;
    next := acc.(items := stored, numberReturned := acc.numberReturned + chunk.numberReturned,
                 totalMatches := chunk.totalMatches);
  }

  /** One more item of a page: its entry follows when it is storable. */
  lemma IndexedPrefix(items: seq<BrowseItem>, i: nat)
    requires i < |items|
    ensures Indexed(items[..i + 1]) == Indexed(items[..i]) + (if Storable(items[i]) then [Entry(items[i])] else [])
  {
    assert items[..i + 1][..i] == items[..i];
  }

  lemma StoreOne(items: seq<IndexItem>, added: seq<IndexItem>, x: IndexItem)
    ensures items + added + [x] == items + (added + [x])
  {
  }

  /** The first hand-over to the page handler: the buffer itself, which
      leaves it as it was. */
  method FirstPage() returns (acc: Snapshot)
    ensures acc == Initial
  {
    acc := GetChunk(Initial, FirstChunk);
    FirstChunkIdle();
  }

  /** The page chain of `loadLibrary`: the page handler is first handed the
      buffer itself, then every page the browse at the next start index
      returns, until a page is the last one, a browse fails, or no reply is
      left. */
  method Browse(replies: seq<Result<Chunk, string>>) returns (end: End, library: Snapshot, requests: seq<int>)
    ensures Walk(end, library, requests) == LoadWalk(replies)
  {
    var acc := FirstPage();
    var offset := NextStart(FirstChunk);
    requests := [];
    var i := 0;
    ExtendNothing(LoadWalk(replies));
    while i < |replies| && replies[i].Ok? && !IsFinished(replies[i].value)
      invariant 0 <= i <= |replies|
      invariant LoadWalk(replies) == Extend(requests, Pages(acc, offset, replies, i, Indexed))
    {
      var chunk := replies[i].value;
      var next := GetChunk(acc, chunk);
      WalkAdvance(requests, acc, offset, replies, i, Indexed, next);
      requests := requests + [offset];
      acc := next;
      offset := NextStart(chunk);
      i := i + 1;
    }
    PagesLast(acc, offset, replies, i, Indexed);
    if i == |replies| {
      end := NoReply;
    } else if replies[i].Err? {
      end := BrowseError(replies[i].error);
    } else {
      acc := GetChunk(acc, replies[i].value);
      end := Complete;
    }
    requests := requests + [offset];
    library := acc;
  }
}
