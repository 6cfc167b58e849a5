/** The narrow command contract of the group coordinator that the queue
    builders drive (`player.coordinator` in lib/actions/): clearQueue,
    setAVTransport, addURIToQueue, getQueue, trackSeek and play.

    The coordinator itself belongs to the external discovery component; its
    reaction to each command is stated here by `Apply`. A device may start
    rejecting commands at any point: `budget` is how many more commands it
    will accept, and a rejected command changes nothing. */
module Device {
  import opened Catalog

  datatype Command =
    | ClearQueue
    | SetAVTransport(uri: string, metadata: string)
    | AddURIToQueue(uri: string, metadata: string, enqueueAsNext: bool, position: int)
    | GetQueue(offset: nat, limit: nat)
    | TrackSeek(position: int)
    | Play

  /** The coordinator's transport: its queue, the source it plays from, the
      1-based number of the current queue track, and whether it is playing. */
  datatype Transport = Transport(
    queue: seq<UriMeta>,
    avUri: string,
    avMeta: string,
    trackNo: int,
    playing: bool)

  /** Everything a command sequence can change: the transport, the log of
      accepted commands, and how many more the device accepts. */
  datatype Snapshot = Snapshot(transport: Transport, log: seq<Command>, budget: nat)

  /** Adding at 1-based `position` inserts before the item now there; a
      position past the end appends. */
  function Insert(q: seq<UriMeta>, item: UriMeta, position: int): (r: seq<UriMeta>)
    ensures |r| == |q| + 1
    ensures 1 <= position <= |q| + 1 ==> r[position - 1] == item
    ensures multiset(r) == multiset(q) + multiset{item}
  {
    if 1 <= position <= |q| + 1 then
      assert q == q[..position - 1] + q[position - 1..];
      q[..position - 1] + [item] + q[position - 1..]
    else q + [item]
  }

  /** The first page of the queue that `getQueue(offset, limit)` returns. */
  function Page(q: seq<UriMeta>, offset: nat, limit: nat): (r: seq<UriMeta>)
    ensures |r| <= limit
    ensures r == [] <==> offset >= |q| || limit == 0
  {
    if offset >= |q| then []
    else if offset + limit <= |q| then q[offset..offset + limit]
    else q[offset..]
  }

  /** The effect of one accepted command on the transport. */
  function Apply(t: Transport, c: Command): Transport {
    match c
    case ClearQueue => t.(queue := [])
    case SetAVTransport(uri, meta) => t.(avUri := uri, avMeta := meta, trackNo := 1)
    case AddURIToQueue(uri, meta, _, pos) => t.(queue := Insert(t.queue, UriMeta(uri, meta), pos))
    case GetQueue(_, _) => t
    case TrackSeek(pos) => t.(trackNo := pos)
    case Play => t.(playing := true)
  }

  /** What each command touches: only `ClearQueue` and `AddURIToQueue`
      change the queue, an add grows it by exactly the added item, only
      `SetAVTransport` changes the source, only it and `TrackSeek` move the
      track number, and nothing but `Play` starts playback. */
  lemma ApplyEffects(t: Transport, c: Command)
    ensures var r := Apply(t, c);
      && (!c.ClearQueue? && !c.AddURIToQueue? ==> r.queue == t.queue)
      && (c.AddURIToQueue? ==> |r.queue| == |t.queue| + 1 &&
                               multiset(r.queue) == multiset(t.queue) + multiset{UriMeta(c.uri, c.metadata)})
      && (!c.SetAVTransport? ==> r.avUri == t.avUri && r.avMeta == t.avMeta)
      && (!c.SetAVTransport? && !c.TrackSeek? ==> r.trackNo == t.trackNo)
      && r.playing == (t.playing || c.Play?)
  {
  }

  /** Issuing one command: applied and logged while the device accepts. */
  function Issue(d: Snapshot, c: Command): Snapshot {
    if d.budget == 0 then d
    else Snapshot(Apply(d.transport, c), d.log + [c], d.budget - 1)
  }

  /** Issuing a sequence of commands in order. */
  function Run(d: Snapshot, cs: seq<Command>): Snapshot
    decreases |cs|
  {
    if cs == [] then d else Run(Issue(d, cs[0]), cs[1..])
  }

  /** The transport after applying every command of `cs`. */
  function ApplyAll(t: Transport, cs: seq<Command>): Transport
    decreases |cs|
  {
    if cs == [] then t else ApplyAll(Apply(t, cs[0]), cs[1..])
  }

  lemma {:induction false} RunAppend(d: Snapshot, a: seq<Command>, b: seq<Command>)
    ensures Run(d, a + b) == Run(Run(d, a), b)
    decreases |a|
  {
    if a != [] {
      assert (a + b)[0] == a[0];
      assert (a + b)[1..] == a[1..] + b;
      RunAppend(Issue(d, a[0]), a[1..], b);
    } else {
      assert a + b == b;
    }
  }

  lemma {:induction false} ApplyAllAppend(t: Transport, a: seq<Command>, b: seq<Command>)
    ensures ApplyAll(t, a + b) == ApplyAll(ApplyAll(t, a), b)
    decreases |a|
  {
    if a != [] {
      assert (a + b)[0] == a[0];
      assert (a + b)[1..] == a[1..] + b;
      ApplyAllAppend(Apply(t, a[0]), a[1..], b);
    } else {
      assert a + b == b;
    }
  }

  /** A device accepts a prefix of what it is sent and nothing after it:
      the commands it accepted are the first `min(budget, |cs|)` of `cs`, in
      order, and the transport is what those alone make of it. */
  lemma {:induction false} RunPrefix(d: Snapshot, cs: seq<Command>)
    ensures var k := if d.budget < |cs| then d.budget else |cs|;
      Run(d, cs) == Snapshot(ApplyAll(d.transport, cs[..k]), d.log + cs[..k], d.budget - k)
    decreases |cs|
  {
    if cs != [] {
      var k := if d.budget < |cs| then d.budget else |cs|;
      if d.budget == 0 {
        RunStuck(d, cs);
      } else {
        RunPrefix(Issue(d, cs[0]), cs[1..]);
        assert cs[..k] == [cs[0]] + cs[1..][..k - 1];
        assert d.log + cs[..k] == d.log + [cs[0]] + cs[1..][..k - 1];
      }
    }
  }

  /** A device that accepts nothing more is not changed by anything sent to it. */
  lemma {:induction false} RunStuck(d: Snapshot, cs: seq<Command>)
    requires d.budget == 0
    ensures Run(d, cs) == d
    decreases |cs|
  {
    if cs != [] {
      RunStuck(d, cs[1..]);
    }
  }

  /** The group coordinator of a player. */
  class Coordinator {
    /** `player.coordinator.uuid`. */
    const uuid: string
    /** `player.coordinator.state.playMode.shuffle`. */
    const shuffle: bool
    /** The reason the device gives when it rejects a command. */
    const rejection: string

    var queue: seq<UriMeta>
    var avUri: string
    var avMeta: string
    var trackNo: int
    var playing: bool
    var log: seq<Command>
    var budget: nat

    function State(): Snapshot
      reads this
    {
      Snapshot(Transport(queue, avUri, avMeta, trackNo, playing), log, budget)
    }

    constructor (uuid: string, shuffle: bool, rejection: string, t: Transport, budget: nat)
      ensures this.uuid == uuid && this.shuffle == shuffle && this.rejection == rejection
      ensures State() == Snapshot(t, [], budget)
    {
      this.uuid := uuid;
      this.shuffle := shuffle;
      this.rejection := rejection;
      queue, avUri, avMeta, trackNo, playing := t.queue, t.avUri, t.avMeta, t.trackNo, t.playing;
      log := [];
      this.budget := budget;
    }

    /** Sends one command; `ok` is false when the device rejects it. */
    method Send(c: Command) returns (ok: bool)
      modifies this
      ensures ok == (old(budget) > 0)
      ensures State() == Issue(old(State()), c)
    {
      ok := budget > 0;
      if ok {
        var t := Apply(Transport(queue, avUri, avMeta, trackNo, playing), c);
        queue, avUri, avMeta, trackNo, playing := t.queue, t.avUri, t.avMeta, t.trackNo, t.playing;
        log := log + [c];
        budget := budget - 1;
      }
    }

    method ClearQueue() returns (ok: bool)
      modifies this
      ensures ok == (old(budget) > 0)
      ensures State() == Issue(old(State()), Command.ClearQueue)
    {
      ok := Send(Command.ClearQueue);
    }

    method SetAVTransport(uri: string, metadata: string) returns (ok: bool)
      modifies this
      ensures ok == (old(budget) > 0)
      ensures State() == Issue(old(State()), Command.SetAVTransport(uri, metadata))
    {
      ok := Send(Command.SetAVTransport(uri, metadata));
    }

    method AddURIToQueue(uri: string, metadata: string, enqueueAsNext: bool, position: int) returns (ok: bool)
      modifies this
      ensures ok == (old(budget) > 0)
      ensures State() == Issue(old(State()), Command.AddURIToQueue(uri, metadata, enqueueAsNext, position))
    {
      ok := Send(Command.AddURIToQueue(uri, metadata, enqueueAsNext, position));
    }

    /** `getQueue(offset, limit)`: the requested page of the queue. */
    method GetQueue(offset: nat, limit: nat) returns (ok: bool, page: seq<UriMeta>)
      modifies this
      ensures ok == (old(budget) > 0)
      ensures State() == Issue(old(State()), Command.GetQueue(offset, limit))
      ensures ok ==> page == Page(old(queue), offset, limit)
    {
      page := Page(queue, offset, limit);
      ok := Send(Command.GetQueue(offset, limit));
    }

    method TrackSeek(position: int) returns (ok: bool)
      modifies this
      ensures ok == (old(budget) > 0)
      ensures State() == Issue(old(State()), Command.TrackSeek(position))
    {
      ok := Send(Command.TrackSeek(position));
    }

    method Play() returns (ok: bool)
      modifies this
      ensures ok == (old(budget) > 0)
      ensures State() == Issue(old(State()), Command.Play)
    {
      ok := Send(Command.Play);
    }
  }
}
