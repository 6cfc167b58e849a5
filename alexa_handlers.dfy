/** The deterministic helpers of the Alexa intent handlers
    (lib/sonos-alexa-handlers.js): room and group parsing, the coordinator
    lookup and its cache, slot resolution, speech cleaning, the music
    dispatch, the sleep-timer breakdown and the two-step song search. A call
    to the HTTP API (`sonosAction`) is returned as a request value; the
    replies it would get are inputs. */
module AlexaHandlers {
  import opened Wrappers
  import Text
  import Catalog
  import RoomService

  type Arg = RoomService.Arg

  /** A call to the HTTP API: action, room and values. */
  datatype Request = Request(action: string, room: Arg, values: seq<string>)

  /** What a handler step does next. */
  datatype Reply =
    | Speak(text: string)                    // answer the user, no API call
    | Send(request: Request)                 // `sonosAction`
    | SendToCoordinator(request: Request)    // `actOnCoordinator`: the room is replaced by its coordinator
    | Fail(error: string)                    // the handler's promise rejects

  // ---------------------------------------------------------------------
  // parseRoomAndGroup, volumeHandler, toggleHandler
  // ---------------------------------------------------------------------

  /** `{group, room}`; a `room` of `false` is `None`. */
  datatype RoomAndGroup = RoomAndGroup(group: bool, room: Option<string>)

  const Group: string := "group"

  /** `parseRoomAndGroup`: an argument whose first `group` starts at a
      non-zero index, ends the argument, and leaves a length of at least 7
      names the group of the room before it, one separator character
      dropped; any other non-blank argument is the room itself. */
  function ParseRoomAndGroup(arg: Arg): (r: RoomAndGroup)
    ensures r.room.None? <==> RoomService.IsBlank(arg)
    ensures r.room.Some? ==> r.room.value != ""
    ensures r.group ==> (arg.Some? &&
      |arg.value| >= 7 && Text.OccursAt(arg.value, Group, |arg.value| - 5) &&
      r.room == Some(arg.value[..|arg.value| - 6]) &&
      forall k :: 0 <= k < |arg.value| - 5 ==> !Text.OccursAt(arg.value, Group, k))
    ensures !r.group && r.room.Some? ==> r.room == arg
  {
    if RoomService.IsBlank(arg) then RoomAndGroup(false, None)
    else
      var s := arg.value;
      var groupIndex := Text.IndexOf(s, Group, 0);
      if groupIndex != 0 && groupIndex + 4 == |s| - 1 && |s| >= 7 then
        RoomAndGroup(true, Some(s[..groupIndex - 1]))
      else RoomAndGroup(false, arg)
  }

  /** A room name, any separator and `group` parse back to that room's group,
      provided `group` does not occur earlier. */
  lemma ParseGroupOf(room: string, sep: char)
    requires room != []
    requires forall k :: 0 <= k <= |room| ==> !Text.OccursAt(room + [sep] + Group, Group, k)
    ensures ParseRoomAndGroup(Some(room + [sep] + Group)) == RoomAndGroup(true, Some(room))
  {
    var s := room + [sep] + Group;
    assert Text.OccursAt(s, Group, |room| + 1);
    assert Text.IndexOf(s, Group, 0) == |room| + 1;
    assert s[..|room|] == room;
  }

  /** An argument that does not end with `group` is a room, not a group. */
  lemma ParsePlainRoom(arg: string)
    requires arg != [] && !Text.OccursAt(arg, Group, |arg| - 5)
    ensures ParseRoomAndGroup(Some(arg)) == RoomAndGroup(false, Some(arg))
  {
  }

  /** `volumeHandler`: no API call without a room; `groupVolume` for a group,
      `volume` otherwise. */
  function VolumeHandler(room: Arg, volume: string): (r: Reply)
    ensures r.Speak? <==> RoomService.IsBlank(room)
    ensures r.Send? ==>
      var parsed := ParseRoomAndGroup(room);
      r.request == Request(if parsed.group then "groupVolume" else "volume", parsed.room, [volume])
  {
    var parsed := ParseRoomAndGroup(room);
    if parsed.room.None? then Speak("Please specify a room.")
    else Send(Request(if parsed.group then "groupVolume" else "volume", parsed.room, [volume]))
  }

  /** `toggleHandler`: only `on` and `off` reach the API. */
  function ToggleHandler(room: Arg, toggle: Arg, skillName: string): (r: Reply)
    ensures r.Send? <==> toggle == Some("on") || toggle == Some("off")
    ensures r.Send? ==> r.request == Request(skillName, room, [toggle.value])
    ensures r.Speak? || r.Send?
  {
    if RoomService.IsBlank(toggle) || (toggle.value != "on" && toggle.value != "off") then
      Speak("I need to know if I should turn " + skillName + " on or off." +
            "For example: Echo, tell Sonos to turn " + skillName + " on.")
    else Send(Request(skillName, room, [toggle.value]))
  }

  // ---------------------------------------------------------------------
  // findCoordinatorForRoom, actOnCoordinator
  // ---------------------------------------------------------------------

  /** A zone of the `zones` reply: its coordinator's room name and its members'
      room names (`None` for a member without one). */
  datatype Zone = Zone(coordinator: string, members: seq<Option<string>>)

  /** A member whose room name equals `room` ignoring case. */
  predicate MemberIs(member: Option<string>, room: string) {
    member.Some? && Text.Lower(member.value) == Text.Lower(room)
  }

  predicate ZoneHas(zone: Zone, room: string) {
    exists j :: 0 <= j < |zone.members| && MemberIs(zone.members[j], room)
  }

  /** The coordinator of the first zone holding the room. */
  function CoordinatorOf(zones: seq<Zone>, room: string): (r: Option<string>)
    ensures r.None? <==> forall i :: 0 <= i < |zones| ==> !ZoneHas(zones[i], room)
    ensures r.Some? ==>
      exists i :: 0 <= i < |zones| && ZoneHas(zones[i], room) && r.value == zones[i].coordinator &&
        forall k :: 0 <= k < i ==> !ZoneHas(zones[k], room)
    decreases |zones|
  {
    if zones == [] then None
    else if ZoneHas(zones[0], room) then Some(zones[0].coordinator)
    else
      var r := CoordinatorOf(zones[1..], room);
      assert forall i :: 1 <= i < |zones| ==> zones[i] == zones[1..][i - 1];
      r
  }

  /** `findCoordinatorForRoom`: scans the zones and their members in order and
      returns at the first member of that name. */
  method FindCoordinatorForRoom(zones: seq<Zone>, room: string) returns (r: Option<string>)
    ensures r == CoordinatorOf(zones, room)
  {
    var i := 0;
    while i < |zones|
      invariant 0 <= i <= |zones|
      invariant CoordinatorOf(zones[i..], room) == CoordinatorOf(zones, room)
    {
      var zone := zones[i];
      var j := 0;
      while j < |zone.members|
        invariant 0 <= j <= |zone.members|
        invariant forall k :: 0 <= k < j ==> !MemberIs(zone.members[k], room)
      {
        var member := zone.members[j];
        if member.Some? && Text.Lower(member.value) == Text.Lower(room) {
          assert ZoneHas(zones[i..][0], room);
          return Some(zone.coordinator);
        }
        j := j + 1;
      }
      assert zones[i..][1..] == zones[i + 1..];
      i := i + 1;
    }
    return None;
  }

  /** JavaScript truthiness of a cached coordinator: present, defined and
      non-empty. */
  predicate Cached(cache: map<string, Option<string>>, room: string) {
    room in cache && cache[room].Some? && cache[room].value != ""
  }

  /** The coordinator `actOnCoordinator` uses and whether it asked for the
      zones to find it. */
  function Lookup(cache: map<string, Option<string>>, room: string, zones: seq<Zone>): (r: (Option<string>, bool))
  {
    if Cached(cache, room) then (cache[room], false) else (CoordinatorOf(zones, room), true)
  }

  /** The cache after a lookup: a lookup that asked for the zones records what
      it found, even when it found nothing. */
  function Remember(cache: map<string, Option<string>>, room: string, zones: seq<Zone>): (c: map<string, Option<string>>)
    ensures c.Keys == cache.Keys + {room}
  {
    if Cached(cache, room) then cache else cache[room := CoordinatorOf(zones, room)]
  }

  /** Once a room's coordinator was found, later calls reuse it without asking
      for the zones, whatever the zones have become. */
  lemma CachedCoordinatorReused(cache: map<string, Option<string>>, room: string, zones: seq<Zone>, later: seq<Zone>)
    requires Lookup(cache, room, zones).0.Some? && Lookup(cache, room, zones).0.value != ""
    ensures Lookup(Remember(cache, room, zones), room, later) == (Lookup(cache, room, zones).0, false)
  {
  }

  /** A room whose coordinator was not found is looked up again next time. */
  lemma MissedCoordinatorRetried(cache: map<string, Option<string>>, room: string, zones: seq<Zone>, later: seq<Zone>)
    requires Lookup(cache, room, zones).0 == None
    ensures Lookup(Remember(cache, room, zones), room, later) == (CoordinatorOf(later, room), true)
  {
  }

  /** Lookups of other rooms do not disturb a cached coordinator. */
  lemma CacheKeepsOtherRooms(cache: map<string, Option<string>>, room: string, other: string, zones: seq<Zone>)
    requires other != room
    ensures other in cache ==> Remember(cache, room, zones)[other] == cache[other]
    ensures Cached(Remember(cache, room, zones), other) == Cached(cache, other)
  {
  }

  /** The handler object; `roomCoordinators` is the module-wide cache from room
      name to coordinator name, never invalidated. */
  class Handler {
    var roomCoordinators: map<string, Option<string>>

    constructor()
      ensures roomCoordinators == map[]
    {
      roomCoordinators := map[];
    }

    /** `actOnCoordinator`: sends the action to the room's coordinator, taken
        from the cache when it holds a truthy name and otherwise looked up in
        the `zones` reply (only consulted then) and cached. */
    method ActOnCoordinator(action: string, room: string, values: seq<string>, zones: seq<Zone>)
      returns (request: Request, queried: bool)
      modifies this
      ensures (request.room, queried) == Lookup(old(roomCoordinators), room, zones)
      ensures request.action == action && request.values == values
      ensures roomCoordinators == Remember(old(roomCoordinators), room, zones)
    {
      var coordinator: Option<string>;
      if room in roomCoordinators && roomCoordinators[room].Some? && roomCoordinators[room].value != "" {
        coordinator := roomCoordinators[room];
        queried := false;
      } else {
        coordinator := FindCoordinatorForRoom(zones, room);
        roomCoordinators := roomCoordinators[room := coordinator];
        queried := true;
      }
      request := Request(action, coordinator, values);
    }
  }

  // ---------------------------------------------------------------------
  // getResolvedSlot, cleanSpeech
  // ---------------------------------------------------------------------

  /** A slot value after entity resolution. */
  datatype ResolvedValue = ResolvedValue(name: Option<string>)

  /** One entry of an authority's `values`; its `value` may be absent. */
  datatype Resolution = Resolution(value: Option<ResolvedValue>)

  /** One authority of `resolutionsPerAuthority`; absent `values` is empty. */
  datatype Authority = Authority(values: seq<Resolution>)

  /** An intent slot: the spoken value and the authorities that resolved it
      (empty when `resolutions` or `resolutionsPerAuthority` is absent). */
  datatype Slot = Slot(value: Option<string>, authorities: seq<Authority>)

  /** The first authority's first value carries a resolved value. */
  predicate HasResolution(slot: Slot) {
    |slot.authorities| > 0 && |slot.authorities[0].values| > 0 &&
    slot.authorities[0].values[0].value.Some?
  }

  /** `getResolvedSlot`: the name the first authority resolved the slot to,
      else the spoken value; nothing without a slot. */
  function GetResolvedSlot(slot: Option<Slot>): (r: Option<string>)
    ensures slot.None? ==> r.None?
    ensures slot.Some? && !HasResolution(slot.value) ==> r == slot.value.value
    ensures slot.Some? && HasResolution(slot.value) ==>
      r == slot.value.authorities[0].values[0].value.value.name
  {
    if slot.None? then None
    else if HasResolution(slot.value) then slot.value.authorities[0].values[0].value.value.name
    else slot.value.value
  }

  /** `cleanSpeech`: every `&` becomes `and`. */
  function CleanSpeech(speech: string): (r: string)
    ensures '&' !in r
  {
    Text.ReplaceAll(speech, '&', "and")
  }

  /** Cleaning adds two characters per `&`, keeps text without `&` as it is,
      and works piece by piece. */
  lemma {:induction false} CleanSpeechLength(speech: string)
    ensures |CleanSpeech(speech)| == |speech| + 2 * multiset(speech)['&']
    ensures '&' !in speech ==> CleanSpeech(speech) == speech
    decreases |speech|
  {
    if speech != [] {
      CleanSpeechLength(speech[1..]);
      assert speech == [speech[0]] + speech[1..];
      assert multiset(speech) == multiset([speech[0]]) + multiset(speech[1..]);
    }
  }

  lemma CleanSpeechConcat(a: string, b: string)
    ensures CleanSpeech(a + b) == CleanSpeech(a) + CleanSpeech(b)
  {
    Text.ReplaceAllConcat(a, b, '&', "and");
  }

  // ---------------------------------------------------------------------
  // doSearch, musicHandler, moreMusicHandler
  // ---------------------------------------------------------------------

  /** `doSearch`: a `musicSearch` on the room itself. */
  function DoSearch(room: Arg, service: string, searchType: string, query: string): (r: Reply)
    ensures r.Send? && r.request.action == "musicSearch" && r.request.room == room
    ensures r.request.values == [Text.Lower(service), searchType, query]
  {
    Send(Request("musicSearch", room, [Text.Lower(service), searchType, query]))
  }

  /** `musicHandler`: `preset` with the name for the presets service, else a
      `musicSearch` on the room's coordinator. */
  function MusicHandler(room: Arg, service: string, cmd: string, name: string): (r: Reply)
    ensures r.Send? <==> service == "presets"
    ensures r.Send? ==> r.request == Request("preset", room, [name])
    ensures r.SendToCoordinator? ==> r.request == Request("musicSearch", room, [Text.Lower(service), cmd, name])
    ensures r.Send? || r.SendToCoordinator?
  {
    if service == "presets" then Send(Request("preset", room, [name]))
    else SendToCoordinator(Request("musicSearch", room, [Text.Lower(service), cmd, name]))
  }

  /** The services whose stations are named after artist and title. */
  const StationServices: seq<string> := ["apple", "spotify", "deezer", "elite"]

  /** String concatenation of a property that may be `undefined`. */
  function Shown(v: Option<string>): string {
    v.GetOr("undefined")
  }

  /** `moreMusicHandler`, given the `state` reply's current artist and title:
      more music by that artist, a station named after artist and title for
      the station-capable services, or a failure without an artist. */
  function MoreMusicHandler(room: Arg, service: string, cmd: string, artist: Option<string>, title: Option<string>): (r: Reply)
    ensures r.Fail? <==> artist.None?
    ensures r.Fail? ==> r.error == "The current artist could not be identified."
    ensures artist.Some? ==>
      r == MusicHandler(room, service, cmd,
        if Text.StartsWith(cmd, "station") && service in StationServices
        then artist.value + " " + Shown(title) else artist.value)
  {
    if artist.None? then Fail("The current artist could not be identified.")
    else
      var name := artist.value;
      var name := if Text.StartsWith(cmd, "station") && service in StationServices then name + " " + Shown(title) else name;
      MusicHandler(room, service, cmd, name)
  }

  // ---------------------------------------------------------------------
  // SetSleepIntent
  // ---------------------------------------------------------------------

  /** The decimal digits of `n`, as JavaScript prints an integer. */
  function Decimal(n: nat): (s: string)
    ensures s != [] && forall i :: 0 <= i < |s| ==> '0' <= s[i] <= '9'
    decreases n
  {
    if n < 10 then [('0' as int + n) as char]
    else Decimal(n / 10) + [('0' as int + n % 10) as char]
  }

  const Day: nat := 24 * 3600

  /** moment's `days()` for a duration of whole seconds. The whole days carry
      into whole months of 146097/4800 days each, and `days()` is what is left
      once the days of those months, rounded up, are taken off. */
  function MomentDays(requested: nat): int {
    var d := requested / Day;
    var months := d * 4800 / 146097;
    d - (months * 146097 + 4799) / 4800
  }

  /** The timer length as written: the request is replaced by one second short
      of a day exactly when its `days()` component is at least one, and is
      otherwise sent as it is. */
  function SleepSeconds(requested: nat): (secs: nat)
    ensures requested < Day ==> secs == requested
    ensures secs == requested || secs == Day - 1
    ensures secs < Day <==> requested < Day || MomentDays(requested) >= 1
  {
    if MomentDays(requested) >= 1 then Day - 1 else requested
  }

  /** Below a month's worth of days, `days()` is the number of whole days, so
      every request of a day or more is capped. */
  lemma {:induction false} SleepCappedWithinMonth(requested: nat)
    requires Day <= requested < 31 * Day
    ensures SleepSeconds(requested) == Day - 1
  {
    var d := requested / Day;
    assert 1 <= d <= 30;
    assert d * 4800 <= 30 * 4800 < 146097;
    assert d * 4800 / 146097 == 0;
    assert MomentDays(requested) == d;
  }

  /** The month wrap: 31 days carry into one month with nothing left for
      `days()`, so the request is sent uncapped. */
  lemma MonthWrapUncapped()
    ensures MomentDays(31 * Day) == 0
    ensures SleepSeconds(31 * Day) == 31 * Day > Day
  {
    assert (31 * Day) / Day == 31;
  }

  /** The timer length the comment intends: anything of a day or more becomes
      one second short of a day. */
  function SleepSecondsIntended(requested: nat): (secs: nat)
    ensures secs < Day
    ensures requested < Day ==> secs == requested
    ensures requested >= Day ==> secs == Day - 1
  {
    if requested >= Day then Day - 1 else requested
  }

  /** The written and the intended timer agree on every request below a
      month's worth of days. */
  lemma SleepSecondsAgree(requested: nat)
    requires requested < 31 * Day
    ensures SleepSeconds(requested) == SleepSecondsIntended(requested)
  {
    if requested >= Day {
      SleepCappedWithinMonth(requested);
    }
  }

  /** One non-zero part of the spoken duration: the number and the unit,
      singular for one and plural above. */
  function Part(n: nat, one: string, many: string): string {
    if n == 0 then "" else Decimal(n) + (if n > 1 then many else one)
  }

  /** The spoken duration: days, hours, minutes and seconds, zero parts left
      out; the seconds part has no trailing space. */
  function SleepMessage(days: nat, hours: nat, minutes: nat, seconds: nat): string {
    Part(days, " day ", " days ") + Part(hours, " hour ", " hours ") +
    Part(minutes, " minute ", " minutes ") + Part(seconds, " second", " seconds")
  }

  /** `a % m` is `r` when `a` is `m` plus `r` with `r` below `m`. */
  lemma ModOfOneMultiple(a: int, m: int, r: int)
    requires m > 0 && 0 <= r < m && a == m + r
    ensures a % m == r
  {
  }

  /** Taking the remainder by the whole units leaves what taking it by one
      unit leaves: `remainder % (n * unit)` with `n = floor(remainder / unit)`. */
  lemma RemainderOfWholeUnits(remainder: nat, unit: nat)
    requires unit > 0 && remainder / unit >= 1
    ensures remainder % ((remainder / unit) * unit) == remainder % unit
  {
    var n := remainder / unit;
    var r := remainder % unit;
    assert remainder == n * unit + r;
    assert n * unit >= unit by {
      assert n * unit == (n - 1) * unit + unit;
      assert (n - 1) * unit >= 0;
    }
    ModOfOneMultiple(remainder, n * unit, r);
  }

  /** One step of the breakdown: the whole units in the remainder, and the
      remainder once they are taken off (left as it is when there are none). */
  lemma TakeUnits(remainder: nat, unit: nat)
    requires unit > 0
    ensures var n := remainder / unit;
      (if n != 0 then remainder % (n * unit) else remainder) == remainder % unit &&
      remainder == n * unit + remainder % unit
  {
    if remainder / unit != 0 {
      RemainderOfWholeUnits(remainder, unit);
    }
  }

  /** The breakdown in `SetSleepIntent`: whole days, hours and minutes are
      taken off the remainder in turn and spoken, the rest are seconds. */
  method SleepBreakdown(durationSecs: nat) returns (days: nat, hours: nat, minutes: nat, seconds: nat, msg: string)
    ensures days * Day + hours * 3600 + minutes * 60 + seconds == durationSecs
    ensures hours < 24 && minutes < 60 && seconds < 60
    ensures msg == SleepMessage(days, hours, minutes, seconds)
  {
    var remainder := durationSecs;
    days := remainder / Day;
    TakeUnits(remainder, Day);
    msg := Part(days, " day ", " days ");
    if days != 0 {
      remainder := remainder % (days * Day);
    }
    ghost var afterDays := remainder;
    hours := remainder / 3600;
    TakeUnits(remainder, 3600);
    msg := msg + Part(hours, " hour ", " hours ");
    if hours != 0 {
      remainder := remainder % (hours * 3600);
    }
    ghost var afterHours := remainder;
    minutes := remainder / 60;
    TakeUnits(remainder, 60);
    msg := msg + Part(minutes, " minute ", " minutes ");
    if minutes != 0 {
      remainder := remainder % (minutes * 60);
    }
    seconds := remainder;
    msg := msg + Part(seconds, " second", " seconds");
    assert durationSecs == days * Day + afterDays && afterDays < Day;
    assert afterDays == hours * 3600 + afterHours;
  }

  /** The spoken duration is empty exactly for a zero-second timer. */
  lemma SleepMessageEmpty(days: nat, hours: nat, minutes: nat, seconds: nat)
    ensures SleepMessage(days, hours, minutes, seconds) == "" <==>
      days == 0 && hours == 0 && minutes == 0 && seconds == 0
  {
  }

  // ---------------------------------------------------------------------
  // SearchIntent
  // ---------------------------------------------------------------------

  /** At most this many candidates are read out. */
  const MaxSearchTracks: nat := 8

  /** The track the user asked for: same title and, when an artist was given,
      same artist, both ignoring case. */
  predicate IsRequested(track: Catalog.Track, song: string, artist: Option<string>) {
    Text.Lower(track.trackName) == Text.Lower(song) &&
    !RoomService.IsBlank(artist) &&
    Text.Lower(track.artistName) == Text.Lower(artist.value)
  }

  /** The search query: the title, and the artist when one was given. */
  function SearchRequest(room: Arg, service: Arg, song: string, artist: Option<string>): (r: Request)
    ensures r.action == "search" && r.room == room && |r.values| == 3 && r.values[1] == "song"
    ensures Text.StartsWith(r.values[2], "track:" + song)
  {
    var query := "track:" + song;
    var query := if RoomService.IsBlank(artist) then query else query + " artist:" + artist.value;
    Request("search", room, [Shown(service), "song", query])
  }

  /** One read-out line of the candidate list. */
  function CandidateLine(num: nat, track: Catalog.Track): string {
    Decimal(num + 1) + ". " + track.trackName + " by " + track.artistName + ". "
  }

  /** The candidate list built from position `num` on, the text read out, and
      the requested track if the scan met it. */
  datatype Candidates = Candidates(toSelect: seq<Catalog.Track>, msg: string, found: Option<Catalog.Track>)

  function CandidatesFrom(tracks: seq<Catalog.Track>, song: string, artist: Option<string>, num: nat): Candidates
    decreases |tracks| - num
  {
    if num >= |tracks| then Candidates([], "", None)
    else if IsRequested(tracks[num], song, artist) then Candidates([], "", Some(tracks[num]))
    else if num == MaxSearchTracks - 1 then Candidates([tracks[num]], CandidateLine(num, tracks[num]), None)
    else
      var rest := CandidatesFrom(tracks, song, artist, num + 1);
      Candidates([tracks[num]] + rest.toSelect, CandidateLine(num, tracks[num]) + rest.msg, rest.found)
  }

  /** The candidates are the tracks in reply order from `num` on, at most
      eight in all, none of them the requested track. */
  lemma {:induction false} CandidatesPrefix(tracks: seq<Catalog.Track>, song: string, artist: Option<string>, num: nat)
    requires num < MaxSearchTracks && num <= |tracks|
    ensures var c := CandidatesFrom(tracks, song, artist, num);
      num + |c.toSelect| <= |tracks| && |c.toSelect| <= MaxSearchTracks - num &&
      c.toSelect == tracks[num..num + |c.toSelect|] &&
      forall i :: 0 <= i < |c.toSelect| ==> !IsRequested(c.toSelect[i], song, artist)
    decreases |tracks| - num
  {
    if num < |tracks| && !IsRequested(tracks[num], song, artist) && num != MaxSearchTracks - 1 {
      CandidatesPrefix(tracks, song, artist, num + 1);
      var rest := CandidatesFrom(tracks, song, artist, num + 1);
      assert CandidatesFrom(tracks, song, artist, num).toSelect == [tracks[num]] + rest.toSelect;
      assert tracks[num..num + 1 + |rest.toSelect|] == [tracks[num]] + tracks[num + 1..num + 1 + |rest.toSelect|];
    }
  }

  /** The scan stops at the requested track, which is the one after the
      candidates; without it, it stops at the end of the reply or after the
      eighth candidate. */
  lemma {:induction false} CandidatesStop(tracks: seq<Catalog.Track>, song: string, artist: Option<string>, num: nat)
    requires num < MaxSearchTracks && num <= |tracks|
    ensures var c := CandidatesFrom(tracks, song, artist, num);
      (c.found.Some? ==> num + |c.toSelect| < |tracks| && c.found.value == tracks[num + |c.toSelect|] &&
                         IsRequested(c.found.value, song, artist)) &&
      (c.found.None? ==> num + |c.toSelect| == |tracks| || num + |c.toSelect| == MaxSearchTracks)
    decreases |tracks| - num
  {
    if num < |tracks| && !IsRequested(tracks[num], song, artist) && num != MaxSearchTracks - 1 {
      CandidatesStop(tracks, song, artist, num + 1);
      var rest := CandidatesFrom(tracks, song, artist, num + 1);
      assert CandidatesFrom(tracks, song, artist, num) ==
        Candidates([tracks[num]] + rest.toSelect, CandidateLine(num, tracks[num]) + rest.msg, rest.found);
    }
  }

  /** The scan so far and the scan still to do make up the whole scan. */
  predicate ScanSplit(all: Candidates, toSelect: seq<Catalog.Track>, msg: string,
                      tracks: seq<Catalog.Track>, song: string, artist: Option<string>, num: nat)
  {
    var rest := CandidatesFrom(tracks, song, artist, num);
    all.toSelect == toSelect + rest.toSelect && all.msg == msg + rest.msg && all.found == rest.found
  }

  /** A track that is not the requested one moves from the scan still to do
      to the scan so far. */
  lemma ScanSplitStep(all: Candidates, toSelect: seq<Catalog.Track>, msg: string,
                      tracks: seq<Catalog.Track>, song: string, artist: Option<string>, num: nat)
    requires num < |tracks| && num < MaxSearchTracks - 1 && !IsRequested(tracks[num], song, artist)
    requires ScanSplit(all, toSelect, msg, tracks, song, artist, num)
    ensures ScanSplit(all, toSelect + [tracks[num]], msg + CandidateLine(num, tracks[num]), tracks, song, artist, num + 1)
  {
    var rest := CandidatesFrom(tracks, song, artist, num + 1);
    var line := CandidateLine(num, tracks[num]);
    assert CandidatesFrom(tracks, song, artist, num) == Candidates([tracks[num]] + rest.toSelect, line + rest.msg, rest.found);
    assert (toSelect + [tracks[num]]) + rest.toSelect == toSelect + ([tracks[num]] + rest.toSelect);
    assert (msg + line) + rest.msg == msg + (line + rest.msg);
  }

  /** The scan ends: at the requested track, after the eighth candidate, or at
      the end of the reply. */
  lemma ScanSplitEnd(all: Candidates, toSelect: seq<Catalog.Track>, msg: string,
                     tracks: seq<Catalog.Track>, song: string, artist: Option<string>, num: nat)
    requires num <= |tracks| && num < MaxSearchTracks
    requires ScanSplit(all, toSelect, msg, tracks, song, artist, num)
    ensures num == |tracks| ==> all == Candidates(toSelect, msg, None)
    ensures num < |tracks| && IsRequested(tracks[num], song, artist) ==>
      all == Candidates(toSelect, msg, Some(tracks[num]))
    ensures num < |tracks| && !IsRequested(tracks[num], song, artist) && num == MaxSearchTracks - 1 ==>
      all == Candidates(toSelect + [tracks[num]], msg + CandidateLine(num, tracks[num]), None)
  {
    assert toSelect + [] == toSelect && msg + "" == msg;
  }

  /** The candidate scan of `SearchIntent`: walks the reply, stops at the
      requested track, otherwise adds the track and its line and stops after
      the eighth. */
  method CollectCandidates(tracks: seq<Catalog.Track>, song: string, artist: Option<string>)
    returns (toSelect: seq<Catalog.Track>, msg: string, foundTrack: Option<Catalog.Track>)
    ensures Candidates(toSelect, msg, foundTrack) == CandidatesFrom(tracks, song, artist, 0)
  {
    ghost var all := CandidatesFrom(tracks, song, artist, 0);
    toSelect, msg, foundTrack := [], "", None;
    assert [] + all.toSelect == all.toSelect && "" + all.msg == all.msg;
    var num := 0;
    while num < |tracks|
      invariant num <= |tracks| && num < MaxSearchTracks
      invariant ScanSplit(all, toSelect, msg, tracks, song, artist, num)
      invariant foundTrack == None
      decreases |tracks| - num
    {
      var track := tracks[num];
      ScanSplitEnd(all, toSelect, msg, tracks, song, artist, num);
      if IsRequested(track, song, artist) {
        foundTrack := Some(track);
        return;
      }
      if num == MaxSearchTracks - 1 {
        toSelect := toSelect + [track];
        msg := msg + CandidateLine(num, track);
        return;
      }
      ScanSplitStep(all, toSelect, msg, tracks, song, artist, num);
      toSelect := toSelect + [track];
      msg := msg + CandidateLine(num, track);
      num := num + 1;
    }
    ScanSplitEnd(all, toSelect, msg, tracks, song, artist, num);
  }

  /** What `SearchIntent` does with the search reply. */
  datatype SearchStep =
    | NoMatches(speech: string)
    | Play(track: Catalog.Track, speech: string)
    | Ask(question: string, toSelect: seq<Catalog.Track>)

  function Playing(track: Catalog.Track): string {
    "OK. Playing " + track.trackName + " by " + track.artistName + "."
  }

  /** `SearchIntent`'s first step as written: with several results and the
      requested track among the candidates, it still plays the first result. */
  function AfterSearchAsWritten(tracks: seq<Catalog.Track>, song: string, artist: Option<string>): (r: SearchStep)
    ensures r.NoMatches? <==> tracks == []
    ensures r.Play? ==> r.track == tracks[0]
  {
    if |tracks| == 0 then NoMatches("Sorry, no matches for " + song + ".")
    else if |tracks| == 1 then Play(tracks[0], Playing(tracks[0]))
    else
      var c := CandidatesFrom(tracks, song, artist, 0);
      if c.found.None? then Ask(CleanSpeech("Choose a track: " + c.msg), c.toSelect)
      else Play(tracks[0], Playing(tracks[0]))
  }

  /** `SearchIntent`'s first step, playing the requested track once the scan
      has found it. */
  function AfterSearch(tracks: seq<Catalog.Track>, song: string, artist: Option<string>): (r: SearchStep)
    ensures r.NoMatches? <==> tracks == []
    ensures r.Play? ==> r.track in tracks && (|tracks| == 1 || IsRequested(r.track, song, artist))
    ensures r.Ask? ==> (|tracks| > 1 && 1 <= |r.toSelect| <= MaxSearchTracks && |r.toSelect| <= |tracks| &&
      r.toSelect == tracks[..|r.toSelect|] &&
      forall i :: 0 <= i < |r.toSelect| ==> !IsRequested(r.toSelect[i], song, artist))
  {
    if |tracks| == 0 then NoMatches("Sorry, no matches for " + song + ".")
    else if |tracks| == 1 then Play(tracks[0], Playing(tracks[0]))
    else
      var c := CandidatesFrom(tracks, song, artist, 0);
      CandidatesPrefix(tracks, song, artist, 0);
      CandidatesStop(tracks, song, artist, 0);
      if c.found.None? then Ask(CleanSpeech("Choose a track: " + c.msg), c.toSelect)
      else Play(c.found.value, Playing(c.found.value))
  }

  /** With the requested track second in the reply, the code as written plays
      the first result, while the scan had found the second. */
  lemma FoundTrackIgnored(tracks: seq<Catalog.Track>, song: string, artist: Option<string>)
    requires |tracks| >= 2
    requires !IsRequested(tracks[0], song, artist) && IsRequested(tracks[1], song, artist)
    ensures AfterSearchAsWritten(tracks, song, artist) == Play(tracks[0], Playing(tracks[0]))
    ensures AfterSearch(tracks, song, artist) == Play(tracks[1], Playing(tracks[1]))
    ensures tracks[0] != tracks[1]
  {
    assert CandidatesFrom(tracks, song, artist, 1).found == Some(tracks[1]);
    assert CandidatesFrom(tracks, song, artist, 0).found == Some(tracks[1]);
  }

  /** Both agree whenever the scan finds nothing or the first result is the
      requested one. */
  lemma AfterSearchAgrees(tracks: seq<Catalog.Track>, song: string, artist: Option<string>)
    requires |tracks| < 2 || CandidatesFrom(tracks, song, artist, 0).found.None? ||
             IsRequested(tracks[0], song, artist)
    ensures AfterSearchAsWritten(tracks, song, artist) == AfterSearch(tracks, song, artist)
  {
  }

  /** `SearchIntent`'s second step: the spoken number picks from the listed
      candidates, counting from 1. */
  function SelectTrack(selected: int, toSelect: seq<Catalog.Track>): (r: Result<Catalog.Track, string>)
    ensures r.Ok? <==> 1 <= selected <= |toSelect|
    ensures r.Ok? ==> r.value == toSelect[selected - 1]
    ensures r.Err? ==> r.error == "Next time select a valid track number, bonehead."
  {
    if selected < 1 || selected > |toSelect| then Err("Next time select a valid track number, bonehead.")
    else Ok(toSelect[selected - 1])
  }

  /** Picking number k from the list the first step asked about plays the
      k-th result of the search. */
  lemma AskThenSelect(tracks: seq<Catalog.Track>, song: string, artist: Option<string>, selected: int)
    requires AfterSearch(tracks, song, artist).Ask?
    requires 1 <= selected <= |AfterSearch(tracks, song, artist).toSelect|
    ensures SelectTrack(selected, AfterSearch(tracks, song, artist).toSelect) == Ok(tracks[selected - 1])
  {
  }
}
