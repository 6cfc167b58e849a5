/** The server's settings object (settings.js): built-in defaults overlaid
    with the user's `settings.json` by a recursive merge. */
module Settings {
  import opened Wrappers

  /** A JSON value as `require` reads it from settings.json. Numbers are
      integers in this model. */
  datatype Json =
    | Null
    | Bool(b: bool)
    | Num(n: int)
    | Str(s: string)
    | Arr(items: seq<Json>)
    | Obj(fields: map<string, Json>)

  type Fields = map<string, Json>

  /** The inputs on which `merge` runs to its end in strict mode: no source
      value it inspects is `null` (whose prototype cannot be asked for), and
      where a plain-object source value meets a defined target value, that
      value is itself an object the merge can descend into. */
  predicate Mergeable(target: Fields, source: Fields)
    decreases Obj(source)
  {
    forall k :: k in source ==>
      source[k] != Null &&
      (source[k].Obj? && k in target ==>
         target[k].Obj? && Mergeable(target[k].fields, source[k].fields))
  }

  /** What `merge(target, source)` leaves in `target`. Keys are visited in any
      order; they are distinct, so the order does not matter. */
  function Merged(target: Fields, source: Fields): (r: Fields)
    requires Mergeable(target, source)
    ensures r.Keys == target.Keys + source.Keys
    decreases Obj(source)
  {
    map k | k in target.Keys + source.Keys ::
      if k in source && source[k].Obj? && k in target then
        Obj(Merged(target[k].fields, source[k].fields))
      else if k in source then source[k]
      else target[k]
  }

  /** `merge`: walks the keys of `source`, descending into a plain-object value
      whose key the target already defines and assigning every other value. */
  method Merge(target: Fields, source: Fields) returns (merged: Fields)
    requires Mergeable(target, source)
    ensures merged == Merged(target, source)
    decreases Obj(source)
  {
    merged := target;
    var pending := source.Keys;
    while pending != {}
      invariant pending <= source.Keys
      invariant merged.Keys == target.Keys + (source.Keys - pending)
      invariant forall k :: k in merged ==>
        merged[k] == (if k in source && k !in pending then Merged(target, source)[k] else target[k])
      decreases pending
    {
      var key :| key in pending;
      if source[key].Obj? && key in merged {
        var inner := Merge(merged[key].fields, source[key].fields);
        merged := merged[key := Obj(inner)];
      } else {
        merged := merged[key := source[key]];
      }
      pending := pending - {key};
    }
  }

  /** The value reached by following `path` through nested objects. */
  function At(f: Fields, path: seq<string>): Option<Json>
    decreases |path|
  {
    if path == [] || path[0] !in f then None
    else if |path| == 1 then Some(f[path[0]])
    else if f[path[0]].Obj? then At(f[path[0]].fields, path[1..])
    else None
  }

  /** `path` leads, in `source`, only through objects and then to a key the
      source does not mention: the merge never assigns there. */
  predicate Untouched(source: Fields, path: seq<string>)
    decreases |path|
  {
    path != [] &&
    (path[0] !in source ||
     (source[path[0]].Obj? && Untouched(source[path[0]].fields, path[1..])))
  }

  /** Every user value that is not an object ends up in the settings at the
      same path. */
  lemma {:induction false} MergedLeafWins(target: Fields, source: Fields, path: seq<string>, v: Json)
    requires Mergeable(target, source)
    requires At(source, path) == Some(v) && !v.Obj?
    ensures At(Merged(target, source), path) == Some(v)
    decreases |path|
  {
    var k := path[0];
    if |path| > 1 {
      if k in target {
        MergedLeafWins(target[k].fields, source[k].fields, path[1..], v);
      }
    }
  }

  /** A target value at a path the source leaves untouched survives the merge. */
  lemma {:induction false} MergedKeeps(target: Fields, source: Fields, path: seq<string>, v: Json)
    requires Mergeable(target, source)
    requires At(target, path) == Some(v) && Untouched(source, path)
    ensures At(Merged(target, source), path) == Some(v)
    decreases |path|
  {
    var k := path[0];
    if k in source {
      MergedKeeps(target[k].fields, source[k].fields, path[1..], v);
    }
  }

  /** Merging the same user settings a second time changes nothing, as long
      as they hold no `null` (a second pass descends into objects the first
      pass assigned whole). */
  lemma {:induction false} MergedIdempotent(target: Fields, source: Fields)
    requires Mergeable(target, source) && NullFree(source)
    ensures Mergeable(Merged(target, source), source)
    ensures Merged(Merged(target, source), source) == Merged(target, source)
    decreases Obj(source)
  {
    var once := Merged(target, source);
    forall k | k in source && source[k].Obj?
      ensures once[k].Obj? && Mergeable(once[k].fields, source[k].fields)
      ensures Merged(once[k].fields, source[k].fields) == once[k].fields
    {
      if k in target {
        MergedIdempotent(target[k].fields, source[k].fields);
      } else {
        SelfMerge(source[k].fields);
      }
    }
    var twice := Merged(once, source);
    forall k | k in twice
      ensures twice[k] == once[k]
    {
    }
  }

  /** Helper: an object that went in by reference merges with itself to itself. */
  lemma {:induction false} SelfMerge(f: Fields)
    requires NullFree(f)
    ensures Mergeable(f, f) && Merged(f, f) == f
    decreases Obj(f)
  {
    forall k | k in f && f[k].Obj?
      ensures Mergeable(f[k].fields, f[k].fields) && Merged(f[k].fields, f[k].fields) == f[k].fields
    {
      SelfMerge(f[k].fields);
    }
  }

  /** No `null` anywhere in the nested objects of `f`. */
  predicate NullFree(f: Fields)
    decreases Obj(f)
  {
    forall k :: k in f ==> f[k] != Null && (f[k].Obj? ==> NullFree(f[k].fields))
  }

  /** The built-in settings, before settings.json is merged in; `dir` stands for
      the directory holding settings.js. */
  function Defaults(dir: string): Fields {
    map[
      "port" := Num(5005),
      "securePort" := Num(5006),
      "cacheDir" := Str(dir + "/cache"),
      "webroot" := Str(dir + "/static"),
      "presetDir" := Str(dir + "/presets"),
      "announceVolume" := Num(40)
    ]
  }

  /** The exported settings object: the defaults, overlaid with settings.json
      when that file could be loaded (`None` when it is missing). */
  function Load(dir: string, user: Option<Fields>): (r: Fields)
    requires user.Some? ==> Mergeable(Defaults(dir), user.value)
    ensures user.None? ==> r == Defaults(dir)
    ensures user.Some? ==> r.Keys == Defaults(dir).Keys + user.value.Keys
  {
    if user.None? then Defaults(dir) else Merged(Defaults(dir), user.value)
  }

  /** A property read: `None` stands for `undefined`. */
  function Get(f: Fields, key: string): Option<Json> {
    if key in f then Some(f[key]) else None
  }

  /** JavaScript truthiness of a property read. */
  predicate Truthy(v: Option<Json>) {
    match v
    case None => false
    case Some(Null) => false
    case Some(Bool(b)) => b
    case Some(Num(n)) => n != 0
    case Some(Str(s)) => s != ""
    case Some(_) => true
  }

  /** The ports and the announce volume keep their defaults unless
      settings.json names them. */
  lemma LoadedDefaults(dir: string, user: Option<Fields>, key: string)
    requires user.Some? ==> Mergeable(Defaults(dir), user.value)
    requires key in {"port", "securePort", "announceVolume"}
    ensures Get(Load(dir, user), key) ==
      if user.Some? && key in user.value then Some(user.value[key]) else Get(Defaults(dir), key)
    ensures Get(Defaults(dir), "port") == Some(Num(5005))
    ensures Get(Defaults(dir), "securePort") == Some(Num(5006))
    ensures Get(Defaults(dir), "announceVolume") == Some(Num(40))
  {
    if user.Some? {
      if key in user.value {
        MergedLeafWins(Defaults(dir), user.value, [key], user.value[key]);
      } else {
        MergedKeeps(Defaults(dir), user.value, [key], Defaults(dir)[key]);
      }
    }
  }
}
