/** The action registry of the HTTP API (lib/sonos-api.js): actions register a
    handler under their name, and a request is dispatched by name to the
    handler with the addressed player and the remaining path segments. */
module SonosApi {
  import opened Wrappers
  import Settings

  /** An action handler: called with the player and the path values, it
      settles with a reply or a rejection reason. */
  type Handler<-P, R> = (P, seq<string>) -> Result<R, string>

  /** The rejection for a name with no handler; the template puts a space
      after the opening quote. */
  function NotFound(action: string): (r: string)
    ensures |r| == |action| + 20 && r[9..|r| - 11] == action
  {
    "action ' " + action + "' not found"
  }

  /** `handleAction` on the registry `actions`, looking at the registry's own
      entries only. */
  function Dispatch<P, R>(actions: map<string, Handler<P, R>>, player: P, action: string, values: seq<string>): (r: Result<R, string>)
    ensures action !in actions ==> r == Err(NotFound(action))
    ensures action in actions ==> r == actions[action](player, values)
  {
    if action !in actions then Err(NotFound(action))
    else actions[action](player, values)
  }

  /** The members every plain object inherits from `Object.prototype`. */
  const ObjectPrototypeNames: set<string> := {
    "constructor", "hasOwnProperty", "isPrototypeOf", "propertyIsEnumerable",
    "toLocaleString", "toString", "valueOf", "__proto__",
    "__defineGetter__", "__defineSetter__", "__lookupGetter__", "__lookupSetter__"
  }

  /** The result of `this.actions[name](player, values)` as the code reads it
      from a plain object: either a registered handler's reply, or a call to
      an inherited `Object.prototype` member instead of a rejection. */
  datatype Outcome<R> = Reply(result: Result<R, string>) | Inherited(name: string)

  /** `handleAction` as written: the truthiness test on `this.actions[name]`
      also finds the inherited members of `Object.prototype`. */
  function DispatchAsWritten<P, R>(actions: map<string, Handler<P, R>>, player: P, action: string, values: seq<string>): (r: Outcome<R>)
    ensures r.Inherited? <==> action !in actions && action in ObjectPrototypeNames
  {
    if action in actions then Reply(actions[action](player, values))
    else if action in ObjectPrototypeNames then Inherited(action)
    else Reply(Err(NotFound(action)))
  }

  /** Both readings agree on every name that is not inherited by plain objects. */
  lemma DispatchAgrees<P, R>(actions: map<string, Handler<P, R>>, player: P, action: string, values: seq<string>)
    ensures action !in ObjectPrototypeNames ==>
      DispatchAsWritten(actions, player, action, values) == Reply(Dispatch(actions, player, action, values))
    ensures action in actions ==>
      DispatchAsWritten(actions, player, action, values) == Reply(Dispatch(actions, player, action, values))
  {
  }

  /** With nothing registered under it, a request for `/constructor` reaches
      `Object` instead of being rejected. */
  lemma InheritedNameNotRejected<P, R>(player: P)
    ensures DispatchAsWritten<P, R>(map[], player, "constructor", []) == Inherited("constructor")
    ensures Dispatch<P, R>(map[], player, "constructor", []) == Err(NotFound("constructor"))
  {
  }

  /** A registration makes its name dispatch to the new handler, replacing any
      earlier one, and leaves every other name as it was. */
  lemma RegisterThenDispatch<P, R>(actions: map<string, Handler<P, R>>, name: string, handler: Handler<P, R>,
                                   player: P, action: string, values: seq<string>)
    ensures Dispatch(actions[name := handler], player, action, values) ==
      if action == name then handler(player, values) else Dispatch(actions, player, action, values)
  {
  }

  /** The rejection for an unregistered action names it. */
  lemma NotFoundNamesAction(action: string)
    ensures |NotFound(action)| == |action| + 20
    ensures NotFound(action)[9..9 + |action|] == action
  {
  }

  /** The API object. */
  class Api<P, R> {
    const settings: Settings.Fields
    var actions: map<string, Handler<P, R>>

    /** The registry starts empty; the directory scan that registers the
        bundled actions is not part of this model. */
    constructor(settings: Settings.Fields)
      ensures this.settings == settings && actions == map[]
    {
      this.settings := settings;
      actions := map[];
    }

    /** `registerAction`: stores the handler under its name. */
    method RegisterAction(action: string, handler: Handler<P, R>)
      modifies this
      ensures actions == old(actions)[action := handler]
    {
      actions := actions[action := handler];
    }

    /** `handleAction`: the named handler's reply, or the not-found rejection
        without any handler being called. */
    function HandleAction(player: P, action: string, values: seq<string>): (r: Result<R, string>)
      reads this
      ensures action in actions ==> r == actions[action](player, values)
      ensures action !in actions ==> r == Err(NotFound(action))
    {
      Dispatch(actions, player, action, values)
    }

    /** `getPort`: the secure port when `https` is configured, the plain one
        otherwise. */
    function GetPort(): (r: Option<Settings.Json>)
      ensures Settings.Truthy(Settings.Get(settings, "https")) ==> r == Settings.Get(settings, "securePort")
      ensures !Settings.Truthy(Settings.Get(settings, "https")) ==> r == Settings.Get(settings, "port")
    {
      Port(settings)
    }
  }

  /** The port chosen for a settings object. */
  function Port(settings: Settings.Fields): Option<Settings.Json> {
    if Settings.Truthy(Settings.Get(settings, "https")) then Settings.Get(settings, "securePort")
    else Settings.Get(settings, "port")
  }

  /** With the loaded settings, the API listens on 5005, or on 5006 when https
      is switched on, unless settings.json names the ports. */
  lemma DefaultPorts(dir: string, user: Option<Settings.Fields>)
    requires user.Some? ==> Settings.Mergeable(Settings.Defaults(dir), user.value)
    requires user.Some? ==> "port" !in user.value && "securePort" !in user.value
    ensures Port(Settings.Load(dir, user)) ==
      if Settings.Truthy(Settings.Get(Settings.Load(dir, user), "https")) then Some(Settings.Num(5006))
      else Some(Settings.Num(5005))
  {
    Settings.LoadedDefaults(dir, user, "port");
    Settings.LoadedDefaults(dir, user, "securePort");
  }
}
