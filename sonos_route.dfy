/** The HTTP route of the API (routes/sonos.js): a request path
    `/<player>/<action>/<values...>` or `/<action>/<values...>` becomes the
    player, the action name and the values handed to the action registry. */
module SonosRoute {
  import opened Wrappers
  import Text

  /** How `requestHandler` settles a request. */
  datatype Outcome<P> =
    | Ended                                                  // favicon request: the response is ended at once
    | NoSystem(message: string)                              // no zone discovered yet
    | Malformed(message: string)                             // the first segment is not valid percent-encoding
    | Dispatch(player: P, action: string, values: seq<string>)  // handed to `handleAction`

  const NoSystemMessage: string := "No sonos system has been discovered."

  /** `requestHandler`. Discovery is given by the number of zones it knows,
      the lookup of a player by its decoded room name, and the player used
      when the path names none. Only the first segment is decoded; the action
      and the values are passed on as they appear in the path. */
  function Route<P>(url: string, zoneCount: nat, getPlayer: string -> Option<P>, anyPlayer: P): (r: Outcome<P>)
    ensures r.Ended? <==> url == "/" + Favicon
    ensures r.NoSystem? <==> url != "/" + Favicon && zoneCount == 0
    ensures r.NoSystem? ==> r.message == NoSystemMessage
    ensures r.Malformed? ==> r.message == Text.UriMalformed
    ensures r.Dispatch? ==> forall i :: 0 <= i < |r.values| ==> '/' !in r.values[i]
    ensures r.Dispatch? ==> r.action == Text.Lower(r.action)
  {
    if url == "/" + Favicon then Ended
    else if zoneCount == 0 then NoSystem(NoSystemMessage)
    else
      var params := Text.Split(Text.Substring(url, 1, |url|), '/');
      match Text.PercentDecode(params[0])
      case Err(e) => Malformed(e)
      case Ok(name) =>
        match getPlayer(name)
        case Some(player) =>
          Dispatch(player, LowerOf(if |params| > 1 then params[1] else ""),
                   if |params| > 2 then params[2..] else [])
        case None =>
          Dispatch(anyPlayer, LowerOf(params[0]), params[1..])
  }

  /** `toLowerCase`, which is idempotent. */
  function LowerOf(s: string): (r: string)
    ensures r == Text.Lower(r)
  {
    Text.LowerIdempotent(s);
    Text.Lower(s)
  }

  /** A path made of a player's encoded room name, an action and values
      reaches that player with that action (lower-cased) and those values. */
  lemma RouteToPlayer<P>(room: string, action: string, values: seq<string>,
                         zoneCount: nat, getPlayer: string -> Option<P>, anyPlayer: P, player: P)
    requires zoneCount > 0 && getPlayer(room) == Some(player)
    requires '/' !in action && forall i :: 0 <= i < |values| ==> '/' !in values[i]
    ensures Route("/" + Text.Join([Text.PercentEncode(room), action] + values, "/"), zoneCount, getPlayer, anyPlayer)
      == Dispatch(player, Text.Lower(action), values)
  {
    var parts := [Text.PercentEncode(room), action] + values;
    Text.EncodedChars(room);
    assert '/' !in Text.PercentEncode(room);
    forall i | 0 <= i < |parts|
      ensures '/' !in parts[i]
    {
      if i >= 2 {
        assert parts[i] == values[i - 2];
      }
    }
    RouteSegments(parts);
    Text.DecodeEncode(room);
    assert parts[2..] == values;
  }

  /** A path whose first segment names no player addresses any player, with
      that segment as the action. */
  lemma RouteToAnyPlayer<P>(action: string, values: seq<string>,
                            zoneCount: nat, getPlayer: string -> Option<P>, anyPlayer: P)
    requires zoneCount > 0 && getPlayer(action) == None
    requires '/' !in action && '%' !in action
    requires forall i :: 0 <= i < |values| ==> '/' !in values[i]
    requires action != Favicon || values != []
    ensures Route("/" + Text.Join([action] + values, "/"), zoneCount, getPlayer, anyPlayer)
      == Dispatch(anyPlayer, Text.Lower(action), values)
  {
    var parts := [action] + values;
    forall i | 0 <= i < |parts|
      ensures '/' !in parts[i]
    {
      if i >= 1 {
        assert parts[i] == values[i - 1];
      }
    }
    RouteSegments(parts);
    Text.DecodePlain(action);
    assert parts[1..] == values;
  }

  /** The segments of a path are the parts it was joined from. */
  lemma RouteSegments(parts: seq<string>)
    requires |parts| >= 1 && forall i :: 0 <= i < |parts| ==> '/' !in parts[i]
    requires |parts| >= 2 || parts[0] != Favicon
    ensures var url := "/" + Text.Join(parts, "/");
      url != "/" + Favicon &&
      Text.Split(Text.Substring(url, 1, |url|), '/') == parts
  {
    var joined := Text.Join(parts, "/");
    var url := "/" + joined;
    assert url[1..] == joined;
    Text.JoinSplit(parts, '/');
    JoinedNotFavicon(parts);
    assert Text.Substring(url, 1, |url|) == joined;
    assert Text.Split(joined, '/') == parts;
    assert url != "/" + Favicon;
  }

  lemma JoinedNotFavicon(parts: seq<string>)
    requires |parts| >= 1 && forall i :: 0 <= i < |parts| ==> '/' !in parts[i]
    requires |parts| >= 2 || parts[0] != Favicon
    ensures Text.Join(parts, "/") != Favicon
  {
    if |parts| >= 2 {
      var joined := Text.Join(parts, "/");
      assert joined == parts[0] + "/" + Text.Join(parts[1..], "/");
      assert joined[|parts[0]|] == '/';
      assert '/' !in Favicon;
    }
  }

  const Favicon: string := "favicon.ico"
}
