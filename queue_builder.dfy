/** The four ordered command sequences that put a resolved result on the
    coordinator (lib/actions/musicSearch.js, the single-track insert shared
    with lib/actions/playTrack.js).

    Each promise chain of the source stops at its first rejected command; a
    chain is modelled as sending a plan of commands until the device refuses
    one. The plans are pure values, so what a strategy does to the queue is
    proved about the plan. */
module QueueBuilder {
  import opened Wrappers
  import opened Catalog
  import opened Device

  /** `'x-rincon-queue:' + uuid + '#0'`: the coordinator's own queue as a
      transport source. */
  function QueueUri(uuid: string): string {
    "x-rincon-queue:" + uuid + "#0"
  }

  /** The playable items of a track list, in order. */
  function Items(tracks: seq<Track>): (r: seq<UriMeta>)
    ensures |r| == |tracks|
    ensures forall i :: 0 <= i < |tracks| ==> r[i] == tracks[i].Item()
  {
    seq(|tracks|, i requires 0 <= i < |tracks| => tracks[i].Item())
  }

  /** A station plays directly from its own URI. */
  function StationPlan(item: UriMeta): seq<Command> {
    [SetAVTransport(item.uri, item.metadata), Play]
  }

  /** An album or playlist of a streaming service replaces the queue. */
  function ContainerPlan(queueUri: string, item: UriMeta): seq<Command> {
    [ClearQueue, SetAVTransport(queueUri, ""), AddURIToQueue(item.uri, item.metadata, true, 1), Play]
  }

  /** The detached enqueue chain of an artist session: track `j` is added
      at 1-based position `j + 1`, for `j` from `from` on. */
  function Enqueue(tracks: seq<Track>, from: nat): (r: seq<Command>)
    ensures |r| == if from < |tracks| then |tracks| - from else 0
    decreases |tracks| - from
  {
    if from >= |tracks| then []
    else [AddURIToQueue(tracks[from].uri, tracks[from].metadata, true, from + 1)] + Enqueue(tracks, from + 1)
  }

  /** An artist session replaces the queue with the first track, starts
      playing, then appends the others. */
  function ArtistPlan(queueUri: string, tracks: seq<Track>): seq<Command>
    requires tracks != []
  {
    [ClearQueue, SetAVTransport(queueUri, ""), AddURIToQueue(tracks[0].uri, tracks[0].metadata, true, 1), Play]
      + Enqueue(tracks, 1)
  }

  /** Where a single track goes: first if the queue is empty, else right
      after the current track. */
  function InsertPosition(queueEmpty: bool, trackNo: int): int {
    if queueEmpty then 1 else trackNo + 1
  }

  /** The commands issued after `getQueue(0, 1)` has answered. */
  function InsertTail(queueUri: string, item: UriMeta, queueEmpty: bool, trackNo: int): seq<Command> {
    var pos := InsertPosition(queueEmpty, trackNo);
    [AddURIToQueue(item.uri, item.metadata, true, pos), SetAVTransport(queueUri, "")]
      + (if queueEmpty then [] else [TrackSeek(pos)])
      + [Play]
  }

  /** A single track goes into the existing queue after the current one. */
  function InsertPlan(queueUri: string, item: UriMeta, queueEmpty: bool, trackNo: int): seq<Command> {
    [GetQueue(0, 1)] + InsertTail(queueUri, item, queueEmpty, trackNo)
  }

  /** What a resolved search puts on the coordinator. */
  datatype Strategy =
    | StationStrategy(item: UriMeta)
    | ContainerStrategy(item: UriMeta)
    | ArtistStrategy(tracks: seq<Track>)
    | InsertStrategy(track: Track)

  /** The commands a strategy sends to a coordinator whose transport is `t`
      and whose queue is `queueUri`. */
  function PlanOf(s: Strategy, queueUri: string, t: Transport): seq<Command>
    requires s.ArtistStrategy? ==> s.tracks != []
  {
    match s
    case StationStrategy(item) => StationPlan(item)
    case ContainerStrategy(item) => ContainerPlan(queueUri, item)
    case ArtistStrategy(tracks) => ArtistPlan(queueUri, tracks)
    case InsertStrategy(track) => InsertPlan(queueUri, track.Item(), t.queue == [], t.trackNo)
  }

  /** How many commands the device must accept before the strategy's
      promise resolves. */
  function SettlesAfter(s: Strategy, queueUri: string, t: Transport): nat {
    match s
    case StationStrategy(_) => 2
    case ContainerStrategy(_) => 4
    case ArtistStrategy(_) => 4
    case InsertStrategy(track) => |InsertPlan(queueUri, track.Item(), t.queue == [], t.trackNo)|
  }

  /** Runs a strategy on the coordinator. */
  method Execute(c: Coordinator, s: Strategy) returns (r: Result<(), string>)
    requires s.ArtistStrategy? ==> s.tracks != []
    modifies c
    ensures c.State() == Run(old(c.State()), PlanOf(s, QueueUri(c.uuid), old(c.State()).transport))
    ensures r.Ok? <==> old(c.budget) >= SettlesAfter(s, QueueUri(c.uuid), old(c.State()).transport)
    ensures r.Err? ==> r.error == c.rejection
  {
    match s
    case StationStrategy(item) =>
      r := PlayStation(c, item);
    case ContainerStrategy(item) =>
      r := PlayContainer(c, item);
    case ArtistStrategy(tracks) =>
      r := PlayArtist(c, tracks);
    case InsertStrategy(track) =>
      r := InsertTrack(c, track);
  }

  /** Sends `cmds` in order and stops at the first one the device rejects,
      as a `.then` chain does; `accepted` counts the commands it took. */
  method SendAll(c: Coordinator, cmds: seq<Command>) returns (accepted: nat)
    modifies c
    ensures accepted == if old(c.budget) < |cmds| then old(c.budget) else |cmds|
    ensures c.budget == old(c.budget) - accepted
    ensures c.State() == Run(old(c.State()), cmds)
  {
    ghost var d0 := c.State();
    accepted := 0;
    while accepted < |cmds|
      invariant accepted <= |cmds| && accepted <= d0.budget
      invariant c.budget == d0.budget - accepted
      invariant c.State() == Run(d0, cmds[..accepted])
    {
      ghost var before := c.State();
      var ok := c.Send(cmds[accepted]);
      if !ok {
        RunStuck(before, cmds[accepted..]);
        RunAppend(d0, cmds[..accepted], cmds[accepted..]);
        assert cmds[..accepted] + cmds[accepted..] == cmds;
        return;
      }
      RunAppend(d0, cmds[..accepted], [cmds[accepted]]);
      assert cmds[..accepted] + [cmds[accepted]] == cmds[..accepted + 1];
      accepted := accepted + 1;
    }
    assert cmds[..accepted] == cmds;
  }

  /** The station strategy: `setAVTransport(uri, metadata)` then `play`. */
  method PlayStation(c: Coordinator, item: UriMeta) returns (r: Result<(), string>)
    modifies c
    ensures c.State() == Run(old(c.State()), StationPlan(item))
    ensures r.Ok? <==> old(c.budget) >= 2
    ensures r.Err? ==> r.error == c.rejection
  {
    var n := SendAll(c, StationPlan(item));
    r := if n == 2 then Ok(()) else Err(c.rejection);
  }

  /** The container strategy for a streaming album or playlist. */
  method PlayContainer(c: Coordinator, item: UriMeta) returns (r: Result<(), string>)
    modifies c
    ensures c.State() == Run(old(c.State()), ContainerPlan(QueueUri(c.uuid), item))
    ensures r.Ok? <==> old(c.budget) >= 4
    ensures r.Err? ==> r.error == c.rejection
  {
    var n := SendAll(c, ContainerPlan(QueueUri(c.uuid), item));
    r := if n == 4 then Ok(()) else Err(c.rejection);
  }

  /** The artist-session strategy. The returned promise settles once
      `play` has answered; the rest of the tracks are added afterwards by a
      chain nobody waits for, so its rejection does not reach `r`. */
  method PlayArtist(c: Coordinator, tracks: seq<Track>) returns (r: Result<(), string>)
    requires tracks != []
    modifies c
    ensures c.State() == Run(old(c.State()), ArtistPlan(QueueUri(c.uuid), tracks))
    ensures r.Ok? <==> old(c.budget) >= 4
    ensures r.Err? ==> r.error == c.rejection
  {
    var queueUri := QueueUri(c.uuid);
    var head := [ClearQueue, SetAVTransport(queueUri, ""),
                 AddURIToQueue(tracks[0].uri, tracks[0].metadata, true, 1), Play];
    ghost var d0 := c.State();
    var n := SendAll(c, head);
    if n == 4 {
      r := Ok(());
      var _ := SendAll(c, Enqueue(tracks, 1));
    } else {
      r := Err(c.rejection);
      RunStuck(c.State(), Enqueue(tracks, 1));
    }
    RunAppend(d0, head, Enqueue(tracks, 1));
  }

  /** The single-track insert: ask whether the queue is empty, add the
      track after the current one (or first), point the transport at the
      queue, seek to the new track unless the queue was empty, and play. */
  method InsertTrack(c: Coordinator, track: Track) returns (r: Result<(), string>)
    modifies c
    ensures c.State() == Run(old(c.State()),
      InsertPlan(QueueUri(c.uuid), track.Item(), old(c.queue) == [], old(c.trackNo)))
    ensures r.Ok? <==> old(c.budget) >= |InsertPlan(QueueUri(c.uuid), track.Item(), old(c.queue) == [], old(c.trackNo))|
    ensures r.Err? ==> r.error == c.rejection
  {
    var queueUri := QueueUri(c.uuid);
    ghost var d0 := c.State();
    var ok, queue := c.GetQueue(0, 1);
    ghost var tail := InsertTail(queueUri, track.Item(), old(c.queue) == [], old(c.trackNo));
    if !ok {
      r := Err(c.rejection);
      RunStuck(c.State(), tail);
      return;
    }
    var empty := |queue| == 0;
    var nextTrackNo := if empty then 1 else c.trackNo + 1;
    var rest := [AddURIToQueue(track.uri, track.metadata, true, nextTrackNo), SetAVTransport(queueUri, "")]
      + (if !empty then [TrackSeek(nextTrackNo)] else [])
      + [Play];
    assert rest == tail;
    var n := SendAll(c, rest);
    r := if n == |rest| then Ok(()) else Err(c.rejection);
    assert InsertPlan(queueUri, track.Item(), d0.transport.queue == [], d0.transport.trackNo) == [GetQueue(0, 1)] + tail;
    RunAppend(d0, [GetQueue(0, 1)], tail);
  }

  /** A device with room for the whole plan accepts all of it. */
  lemma RunAll(d: Snapshot, cs: seq<Command>)
    requires d.budget >= |cs|
    ensures Run(d, cs).transport == ApplyAll(d.transport, cs)
    ensures Run(d, cs).log == d.log + cs
  {
    RunPrefix(d, cs);
    assert cs[..|cs|] == cs;
  }

  lemma ApplyAllCons(t: Transport, c: Command, rest: seq<Command>)
    ensures ApplyAll(t, [c] + rest) == ApplyAll(Apply(t, c), rest)
  {
    assert ([c] + rest)[0] == c;
    assert ([c] + rest)[1..] == rest;
  }

  /** A station never touches the queue, and leaves the transport playing
      the station's own URI. */
  lemma StationOutcome(d: Snapshot, item: UriMeta)
    requires d.budget >= 2
    ensures Run(d, StationPlan(item)).transport
      == d.transport.(avUri := item.uri, avMeta := item.metadata, trackNo := 1, playing := true)
  {
    var t := d.transport;
    RunAll(d, StationPlan(item));
    ApplyAllCons(t, SetAVTransport(item.uri, item.metadata), [Play]);
    ApplyAllCons(Apply(t, SetAVTransport(item.uri, item.metadata)), Play, []);
  }

  /** Whatever the device accepts of a station plan, the queue is as it was. */
  lemma {:induction false} StationKeepsQueue(d: Snapshot, item: UriMeta)
    ensures Run(d, StationPlan(item)).transport.queue == d.transport.queue
  {
    var plan := StationPlan(item);
    RunPrefix(d, plan);
    var k := if d.budget < |plan| then d.budget else |plan|;
    if k == 1 {
      assert plan[..k] == [plan[0]] + [];
      ApplyAllCons(d.transport, plan[0], []);
    } else if k == 2 {
      assert plan[..k] == plan;
      ApplyAllCons(d.transport, plan[0], [Play]);
      ApplyAllCons(Apply(d.transport, plan[0]), Play, []);
    }
  }

  /** After a container plan the queue holds exactly the container, and the
      transport plays it from its first track. */
  lemma ContainerOutcome(d: Snapshot, queueUri: string, item: UriMeta)
    requires d.budget >= 4
    ensures Run(d, ContainerPlan(queueUri, item)).transport
      == d.transport.(queue := [item], avUri := queueUri, avMeta := "", trackNo := 1, playing := true)
  {
    var t0 := d.transport;
    var t1 := Apply(t0, ClearQueue);
    var t2 := Apply(t1, SetAVTransport(queueUri, ""));
    var t3 := Apply(t2, AddURIToQueue(item.uri, item.metadata, true, 1));
    RunAll(d, ContainerPlan(queueUri, item));
    ApplyAllCons(t0, ClearQueue, ContainerPlan(queueUri, item)[1..]);
    ApplyAllCons(t1, SetAVTransport(queueUri, ""), ContainerPlan(queueUri, item)[2..]);
    ApplyAllCons(t2, AddURIToQueue(item.uri, item.metadata, true, 1), [Play]);
    ApplyAllCons(t3, Play, []);
  }

  /** Adding track `j` at position `j + 1` onto a queue holding the first `j`
      tracks appends them all, in order. */
  lemma {:induction false} EnqueueAppends(t: Transport, tracks: seq<Track>, from: nat)
    requires from <= |tracks|
    requires t.queue == Items(tracks[..from])
    ensures ApplyAll(t, Enqueue(tracks, from)) == t.(queue := Items(tracks))
    decreases |tracks| - from
  {
    if from < |tracks| {
      var cmd := AddURIToQueue(tracks[from].uri, tracks[from].metadata, true, from + 1);
      var t' := Apply(t, cmd);
      assert t'.queue == t.queue + [tracks[from].Item()];
      assert Items(tracks[..from + 1]) == Items(tracks[..from]) + [tracks[from].Item()];
      ApplyAllCons(t, cmd, Enqueue(tracks, from + 1));
      EnqueueAppends(t', tracks, from + 1);
    } else {
      assert tracks[..from] == tracks;
    }
  }

  /** When the device accepts the whole artist session, the queue is the
      track list in order, played from its first track. */
  lemma ArtistOutcome(d: Snapshot, queueUri: string, tracks: seq<Track>)
    requires tracks != []
    requires d.budget >= |ArtistPlan(queueUri, tracks)|
    ensures Run(d, ArtistPlan(queueUri, tracks)).transport
      == d.transport.(queue := Items(tracks), avUri := queueUri, avMeta := "", trackNo := 1, playing := true)
  {
    var head := ContainerPlan(queueUri, tracks[0].Item());
    assert ArtistPlan(queueUri, tracks) == head + Enqueue(tracks, 1);
    RunAll(d, ArtistPlan(queueUri, tracks));
    ApplyAllAppend(d.transport, head, Enqueue(tracks, 1));
    RunAll(d, head);
    ContainerOutcome(d, queueUri, tracks[0].Item());
    assert [tracks[0].Item()] == Items(tracks[..1]);
    EnqueueAppends(ApplyAll(d.transport, head), tracks, 1);
  }

  /** The single-track insert never clears the queue: when the device
      accepts the whole plan the new queue is the old one with the track
      inserted after the current track (or as the only track), and the
      transport points at that track and plays it. */
  lemma InsertOutcome(d: Snapshot, queueUri: string, item: UriMeta)
    requires var t := d.transport;
      d.budget >= |InsertPlan(queueUri, item, t.queue == [], t.trackNo)|
    ensures var t := d.transport;
      var t' := Run(d, InsertPlan(queueUri, item, t.queue == [], t.trackNo)).transport;
      && multiset(t'.queue) == multiset(t.queue) + multiset{item}
      && t'.avUri == queueUri && t'.playing
      && (t.queue == [] ==> t'.queue == [item] && t'.trackNo == 1)
      && (t.queue != [] && 0 <= t.trackNo <= |t.queue| ==>
            t'.queue == t.queue[..t.trackNo] + [item] + t.queue[t.trackNo..]
            && t'.trackNo == t.trackNo + 1
            && t'.queue[t'.trackNo - 1] == item)
  {
    var t := d.transport;
    var pos := InsertPosition(t.queue == [], t.trackNo);
    RunAll(d, InsertPlan(queueUri, item, t.queue == [], t.trackNo));
    InsertApplied(t, queueUri, item);
    if t.queue != [] && 0 <= t.trackNo <= |t.queue| {
      assert 1 <= pos <= |t.queue| + 1;
    }
  }

  /** The transport an insert plan leaves, command by command: the item
      inserted at the position after the current track, the transport on
      the queue, the seek (when the queue was not empty) and play. */
  lemma InsertApplied(t: Transport, queueUri: string, item: UriMeta)
    ensures var empty := t.queue == [];
      var pos := InsertPosition(empty, t.trackNo);
      ApplyAll(t, InsertPlan(queueUri, item, empty, t.trackNo))
        == t.(queue := Insert(t.queue, item, pos), avUri := queueUri, avMeta := "",
              trackNo := if empty then 1 else pos, playing := true)
  {
    var empty := t.queue == [];
    var pos := InsertPosition(empty, t.trackNo);
    var add := AddURIToQueue(item.uri, item.metadata, true, pos);
    var setAv := SetAVTransport(queueUri, "");
    var seek: seq<Command> := if empty then [] else [TrackSeek(pos)];
    var t1 := Apply(t, GetQueue(0, 1));
    ApplyAllCons(t, GetQueue(0, 1), [add, setAv] + seek + [Play]);
    ApplyAllAppend(t1, [add, setAv] + seek, [Play]);
    ApplyAllAppend(t1, [add, setAv], seek);
    ApplyPair(t1, add, setAv);
    var t3 := Apply(Apply(t1, add), setAv);
    assert t3 == t.(queue := Insert(t.queue, item, pos), avUri := queueUri, avMeta := "", trackNo := 1);
    if !empty {
      ApplySingle(t3, TrackSeek(pos));
    }
    ApplySingle(ApplyAll(t3, seek), Play);
  }

  lemma ApplySingle(t: Transport, c: Command)
    ensures ApplyAll(t, [c]) == Apply(t, c)
  {
    assert [c][1..] == [];
  }

  lemma ApplyPair(t: Transport, a: Command, b: Command)
    ensures ApplyAll(t, [a, b]) == Apply(Apply(t, a), b)
  {
    assert [a, b][1..] == [b];
    ApplySingle(Apply(t, a), b);
  }

  /** The seek is issued exactly when the queue was not empty, and always
      after the transport has been pointed at the queue. */
  lemma InsertSeekOrder(queueUri: string, item: UriMeta, queueEmpty: bool, trackNo: int)
    ensures var plan := InsertPlan(queueUri, item, queueEmpty, trackNo);
      && plan[0] == GetQueue(0, 1)
      && plan[2] == SetAVTransport(queueUri, "")
      && plan[|plan| - 1] == Play
      && (queueEmpty <==> forall i :: 0 <= i < |plan| ==> !plan[i].TrackSeek?)
      && (!queueEmpty ==> plan[3] == TrackSeek(trackNo + 1))
  {
    var plan := InsertPlan(queueUri, item, queueEmpty, trackNo);
    var pos := InsertPosition(queueEmpty, trackNo);
    var add := AddURIToQueue(item.uri, item.metadata, true, pos);
    if queueEmpty {
      assert plan == [GetQueue(0, 1), add, SetAVTransport(queueUri, ""), Play];
      forall i | 0 <= i < |plan| ensures !plan[i].TrackSeek? {
      }
    } else {
      assert plan == [GetQueue(0, 1), add, SetAVTransport(queueUri, ""), TrackSeek(pos), Play];
      assert plan[3].TrackSeek?;
    }
  }
}
