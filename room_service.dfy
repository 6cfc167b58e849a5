/** The per-device room and music-service memory of the Alexa skill
    (lib/room-service-helper.js). The MySQL table `alexa_room_service` is a
    map from device id to the stored (room, service) row; whether the pool
    is configured and whether the database answers are fixed for a helper. */
module RoomService {
  import opened Wrappers
  import Text

  /** A room or service argument as the handlers pass it; `None` stands for
      `undefined` or `null`. */
  type Arg = Option<string>

  /** `isBlank`: undefined, null or the empty string. */
  predicate IsBlank(v: Arg) {
    v.None? || v.value == ""
  }

  /** The settings the helper reads when it is loaded. */
  datatype Config = Config(validRooms: Option<seq<string>>,
                           defaultRoom: Option<string>,
                           defaultMusicService: Option<string>)

  /** `defaultRoom`: the setting when defined, else the empty string. */
  function DefaultRoom(cfg: Config): string {
    cfg.defaultRoom.GetOr("")
  }

  /** `defaultMusicService`: the setting when defined and non-empty, else
      `presets`. */
  function DefaultMusicService(cfg: Config): (s: string)
    ensures s != ""
    ensures cfg.defaultMusicService.None? || cfg.defaultMusicService == Some("") ==> s == "presets"
  {
    if cfg.defaultMusicService.Some? && cfg.defaultMusicService.value != "" then cfg.defaultMusicService.value
    else "presets"
  }

  /** A stored row of `alexa_room_service`. */
  datatype Row = Row(room: string, service: string)

  /** The first configured room equal to `room` ignoring case. */
  function FirstMatch(rooms: seq<string>, room: string): (r: Option<string>)
    ensures r.None? <==> forall i :: 0 <= i < |rooms| ==> Text.Lower(rooms[i]) != Text.Lower(room)
    ensures r.Some? ==>
      (exists i :: 0 <= i < |rooms| && rooms[i] == r.value &&
         Text.Lower(rooms[i]) == Text.Lower(room) &&
         forall j :: 0 <= j < i ==> Text.Lower(rooms[j]) != Text.Lower(room))
    decreases |rooms|
  {
    if rooms == [] then None
    else if Text.Lower(rooms[0]) == Text.Lower(room) then Some(rooms[0])
    else
      FirstMatch(rooms[1..], room)
  }

  /** `findValidRoom`: the configured spelling of `room`, or `undefined` when
      no valid rooms are configured or none matches. */
  function FindValidRoom(validRooms: Option<seq<string>>, room: string): (r: Option<string>)
    ensures r.Some? ==>
      (validRooms.Some? && r.value in validRooms.value && Text.Lower(r.value) == Text.Lower(room))
    ensures r.None? <==>
      (validRooms.None? ||
       forall i :: 0 <= i < |validRooms.value| ==> Text.Lower(validRooms.value[i]) != Text.Lower(room))
  {
    if validRooms.None? then None else FirstMatch(validRooms.value, room)
  }

  /** `checkDefaults`: a blank room becomes the default room and a blank
      service the default music service, which is never blank. */
  function CheckDefaults(cfg: Config, room: Arg, service: Arg): (r: Row)
    ensures r.room == (if IsBlank(room) then DefaultRoom(cfg) else room.value)
    ensures r.service == (if IsBlank(service) then DefaultMusicService(cfg) else service.value)
    ensures r.service != ""
  {
    Row(if IsBlank(room) then DefaultRoom(cfg) else room.value,
        if IsBlank(service) then DefaultMusicService(cfg) else service.value)
  }

  /** `service.toLowerCase()` when the service is not blank. */
  function LowerArg(v: Arg): (r: Arg)
    ensures IsBlank(r) <==> IsBlank(v)
  {
    if IsBlank(v) then v else Some(Text.Lower(v.value))
  }

  /** How `loadRoomAndService` settles: with a room and a service, with a
      rejection, or never (a database failure inside `readCurrent` rejects
      a promise nobody handles). */
  datatype Outcome = Resolved(room: Option<string>, service: Arg) | Rejected(reason: string) | Pending

  const DbError: string := "An error occurred."

  /** The room after the valid-rooms check: the configured spelling when the
      room is not blank and a non-empty list is configured. */
  function Spelled(cfg: Config, room: Arg): Arg {
    if !IsBlank(room) && cfg.validRooms.Some? && |cfg.validRooms.value| > 0
    then FindValidRoom(cfg.validRooms, room.value)
    else room
  }

  /** A non-blank room with a non-empty valid-rooms list and no match is refused. */
  predicate InvalidRoom(cfg: Config, room: Arg) {
    !IsBlank(room) && cfg.validRooms.Some? && |cfg.validRooms.value| > 0 &&
    FindValidRoom(cfg.validRooms, room.value).None?
  }

  /** The room a request ends with is always looked up once more among the
      valid rooms, so it is either undefined or one of them. */
  lemma ResolvedRoomIsValid(cfg: Config, room: string)
    ensures FindValidRoom(cfg.validRooms, room).None? ||
      (cfg.validRooms.Some? && FindValidRoom(cfg.validRooms, room).value in cfg.validRooms.value)
    ensures cfg.validRooms.None? ==> FindValidRoom(cfg.validRooms, room).None?
  {
  }

  /** `findValidRoom` gives back a configured spelling that it finds again. */
  lemma {:induction false} FindValidRoomStable(validRooms: seq<string>, room: string)
    requires FindValidRoom(Some(validRooms), room).Some?
    ensures FindValidRoom(Some(validRooms), FindValidRoom(Some(validRooms), room).value) ==
      FindValidRoom(Some(validRooms), room)
  {
    var r := FindValidRoom(Some(validRooms), room).value;
    var again := FindValidRoom(Some(validRooms), r);
    assert Text.Lower(r) == Text.Lower(room);
    if again.Some? {
      var i :| 0 <= i < |validRooms| && validRooms[i] == again.value &&
        Text.Lower(validRooms[i]) == Text.Lower(r) &&
        forall j :: 0 <= j < i ==> Text.Lower(validRooms[j]) != Text.Lower(r);
      var k :| 0 <= k < |validRooms| && validRooms[k] == r &&
        Text.Lower(validRooms[k]) == Text.Lower(room) &&
        forall j :: 0 <= j < k ==> Text.Lower(validRooms[j]) != Text.Lower(room);
      if i < k {
        assert Text.Lower(validRooms[i]) == Text.Lower(room);
      } else if k < i {
        assert Text.Lower(validRooms[k]) == Text.Lower(r);
      }
    }
  }

  /** The helper, with the table it reads and writes. */
  class Helper {
    const cfg: Config
    /** `settings.db.mysql` is configured, so a connection pool exists. */
    const pooled: bool
    /** Every connection and query succeeds; when false the first one fails. */
    const reachable: bool
    var table: map<string, Row>

    constructor(cfg: Config, pooled: bool, reachable: bool, table: map<string, Row>)
      ensures this.cfg == cfg && this.pooled == pooled && this.reachable == reachable && this.table == table
    {
      this.cfg := cfg;
      this.pooled := pooled;
      this.reachable := reachable;
      this.table := table;
    }

    /** `changeCurrent`: records the device's room and service. Without a pool,
        or with both blank, the inputs come back unchanged and nothing is
        written. Otherwise the service is lower-cased; an existing row has
        only its non-blank fields updated, and a missing row is inserted with
        the blanks replaced by the defaults. */
    method ChangeCurrent(deviceId: string, room: Arg, service: Arg) returns (r: Result<(Arg, Arg), string>)
      modifies this
      ensures !pooled || (IsBlank(room) && IsBlank(service)) ==>
        r == Ok((room, service)) && table == old(table)
      ensures pooled && !(IsBlank(room) && IsBlank(service)) && !reachable ==>
        r == Err(DbError) && table == old(table)
      ensures pooled && !(IsBlank(room) && IsBlank(service)) && reachable && deviceId in old(table) ==>
        r == Ok((room, LowerArg(service))) &&
        table == old(table)[deviceId := Row(
          if IsBlank(room) then old(table)[deviceId].room else room.value,
          if IsBlank(service) then old(table)[deviceId].service else Text.Lower(service.value))]
      ensures pooled && !(IsBlank(room) && IsBlank(service)) && reachable && deviceId !in old(table) ==>
        var row := CheckDefaults(cfg, room, LowerArg(service));
        r == Ok((Some(row.room), Some(row.service))) && table == old(table)[deviceId := row]
    {
      if !pooled || (IsBlank(room) && IsBlank(service)) {
        return Ok((room, service));
      }
      var room, service := room, service;
      if !IsBlank(service) {
        service := Some(Text.Lower(service.value));
      }
      if !reachable {
        return Err(DbError);
      }
      if deviceId in table {
        var row := table[deviceId];
        if !IsBlank(room) {
          row := row.(room := room.value);
        }
        if !IsBlank(service) {
          row := row.(service := service.value);
        }
        table := table[deviceId := row];
      } else {
        if IsBlank(room) {
          room := Some(DefaultRoom(cfg));
        }
        if IsBlank(service) {
          service := Some(DefaultMusicService(cfg));
        }
        table := table[deviceId := Row(room.value, service.value)];
      }
      r := Ok((room, service));
    }

    /** `loadRoomAndService`: checks the room against the valid rooms, then
        takes what the table remembers for the device (inserting the defaults
        for a new device, and recording a differing room), or the defaults
        when there is no device id or no pool. The service argument is always
        blank at the start, so the stored row is always read when there is a
        device id and a pool. */
    method LoadRoomAndService(deviceId: Arg, room: Arg) returns (o: Outcome)
      modifies this
      ensures InvalidRoom(cfg, room) <==> o.Rejected?
      ensures o.Rejected? ==> o.reason == "invalid room " + room.value && table == old(table)
      ensures o.Resolved? ==> o.room.None? || (cfg.validRooms.Some? && o.room.value in cfg.validRooms.value)
      ensures o.Resolved? && cfg.validRooms.None? ==> o.room.None?
      ensures o.Pending? <==> !InvalidRoom(cfg, room) && !IsBlank(deviceId) && pooled && !reachable
      ensures o.Pending? ==> table == old(table)
      ensures !InvalidRoom(cfg, room) && (IsBlank(deviceId) || !pooled) ==>
        var row := CheckDefaults(cfg, Spelled(cfg, room), Some(""));
        o == Resolved(FindValidRoom(cfg.validRooms, row.room), Some(row.service)) && table == old(table)
      ensures (!InvalidRoom(cfg, room) && !IsBlank(deviceId) && pooled && reachable &&
               deviceId.value !in old(table)) ==>
        var row := CheckDefaults(cfg, Spelled(cfg, room), Some(""));
        o == Resolved(FindValidRoom(cfg.validRooms, row.room), Some(row.service)) &&
        table == old(table)[deviceId.value := row]
      ensures (!InvalidRoom(cfg, room) && !IsBlank(deviceId) && pooled && reachable &&
               deviceId.value in old(table)) ==>
        var stored := old(table)[deviceId.value];
        var spelled := Spelled(cfg, room);
        if IsBlank(spelled) || spelled.value == stored.room then
          o == Resolved(FindValidRoom(cfg.validRooms, if IsBlank(spelled) then stored.room else spelled.value),
                        Some(stored.service)) &&
          table == old(table)
        else
          o == Resolved(FindValidRoom(cfg.validRooms, spelled.value), LowerArg(Some(stored.service))) &&
          table == old(table)[deviceId.value := Row(spelled.value, if stored.service == "" then "" else Text.Lower(stored.service))]
    {
      var room := room;
      var service: Arg := Some("");
      if !IsBlank(room) && cfg.validRooms.Some? && |cfg.validRooms.value| > 0 {
        var foundRoom := FindValidRoom(cfg.validRooms, room.value);
        if foundRoom.None? {
          return Rejected("invalid room " + room.value);
        }
        room := foundRoom;
      }
      if !IsBlank(deviceId) && pooled {
        // readCurrent
        if !reachable {
          return Pending;
        }
        var id := deviceId.value;
        if id !in table {
          // addCurrent
          var row := CheckDefaults(cfg, room, service);
          table := table[id := row];
          return Resolved(FindValidRoom(cfg.validRooms, row.room), Some(row.service));
        }
        var stored := table[id];
        var newRoom: Arg := None;
        if IsBlank(room) {
          room := Some(stored.room);
        } else if room.value != stored.room {
          newRoom := room;
        }
        service := Some(stored.service);
        if IsBlank(newRoom) {
          return Resolved(FindValidRoom(cfg.validRooms, room.value), service);
        }
        var changed := ChangeCurrent(id, newRoom, service);
        if changed.Err? {
          assert false;
          return Pending;
        }
        var (r, s) := changed.value;
        return Resolved(FindValidRoom(cfg.validRooms, r.value), s);
      } else {
        var row := CheckDefaults(cfg, room, service);
        return Resolved(FindValidRoom(cfg.validRooms, row.room), Some(row.service));
      }
    }
  }
}
