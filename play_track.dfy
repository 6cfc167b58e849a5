/** The `playtrack` action (lib/actions/playTrack.js): the single-track
    insert of `musicsearch`, applied to the first of the tracks it is
    given. */
module PlayTrack {
  import opened Wrappers
  import opened Catalog
  import opened Device
  import opened QueueBuilder

  /** What reading `track.uri` throws when there is no first track. */
  const NoTrack: string := "TypeError: Cannot read property 'uri' of undefined"

  /** `playTrack`: with no tracks the queue is still asked for, and the
      chain then fails on the missing track. */
  method PlayTrack(c: Coordinator, tracks: seq<Track>) returns (r: Result<(), string>)
    modifies c
    ensures tracks != [] ==> c.State() == Run(old(c.State()),
      InsertPlan(QueueUri(c.uuid), tracks[0].Item(), old(c.queue) == [], old(c.trackNo)))
    ensures tracks != [] ==> (r.Ok? <==>
      old(c.budget) >= |InsertPlan(QueueUri(c.uuid), tracks[0].Item(), old(c.queue) == [], old(c.trackNo))|)
    ensures tracks == [] ==> (c.State() == Run(old(c.State()), [GetQueue(0, 1)])
      && r == Err(if old(c.budget) > 0 then NoTrack else c.rejection))
    ensures tracks != [] && r.Err? ==> r.error == c.rejection
  {
    if tracks == [] {
      var ok, _ := c.GetQueue(0, 1);
      r := Err(if ok then NoTrack else c.rejection);
    } else {
      r := InsertTrack(c, tracks[0]);
    }
  }
}
