/** A model of `PropConfig`, the process-wide lazy configuration cache of the
    change-data-capture utilities.

    The cache holds at most one snapshot of key/value properties. `get()` loads
    the snapshot from a fixed resource the first time it is needed and keeps it;
    `setProperty` replaces it unconditionally; the two `getProperty` overloads
    make sure a snapshot exists and then read it, the keyed one failing fast on
    a missing or empty value.

    The module has two layers: pure specification functions over an abstract
    `State`, with the properties the cache promises proved about them (also over
    arbitrary sequences of calls), and the class `PropConfig` whose methods
    update the field `instance` in place and are proved to follow those
    functions. */
module Utils {

  datatype Option<+T> = None | Some(value: T)

  /** A configuration snapshot: every key with its string value. The Commons
      Configuration object and the `java.util.Properties` it converts to and
      from are both taken to be exactly this map. */
  type Snapshot = map<string, string>

  /** What reading and parsing the resource yields. It is fixed for the lifetime
      of the cache, so every load attempt sees the same outcome. */
  datatype LoadResult = Loaded(contents: Snapshot) | LoadFailed

  /** The configuration resource: its name (the constant `CONFIG_FILE`) and
      what loading it yields. */
  datatype Resource = Resource(name: string, load: LoadResult)

  /** The two failures, both thrown as `IOException` by the source: the
      resource could not be loaded, or a key is not set. */
  datatype ConfigError = ConfigLoadError(resourceName: string) | MissingKey(key: string)

  datatype Result<+T> = Ok(value: T) | Err(error: ConfigError)

  /** The observable state of the cache: the held snapshot, if any, and how many
      times a load of the resource has been attempted. */
  datatype State = State(instance: Option<Snapshot>, loads: nat)

  /** The state a call leaves behind, with what the call returned. */
  datatype Outcome<+T> = Outcome(state: State, reply: Result<T>)

  /** The cache as it is before any call. */
  const Fresh: State := State(None, 0)

  // ---------------------------------------------------------------------------
  // Key lookup in a snapshot

  /** The value stored under `key`, or `None` (Java `null`) when the key is
      absent. */
  function GetString(snap: Snapshot, key: string): (v: Option<string>)
    ensures v.Some? <==> key in snap
    ensures v.Some? ==> v.value == snap[key]
  {
    if key in snap then Some(snap[key]) else None
  }

  /** `StringUtils.isEmpty`: true of `null` and of `""` only, so a value made
      of blanks is not empty. */
  function IsEmpty(v: Option<string>): (b: bool)
    ensures b <==> v.None? || |v.value| == 0
    ensures v.Some? && |v.value| > 0 ==> !b
  {
    v.None? || v.value == ""
  }

  /** The fail-fast lookup: the value of `key` when it is set to a non-empty
      string, otherwise a "not set" error naming the key. */
  function Lookup(snap: Snapshot, key: string): (r: Result<string>)
    ensures r.Ok? <==> key in snap && |snap[key]| > 0
    ensures r.Ok? ==> r.value == snap[key] && r.value != ""
    ensures r.Err? ==> r.error == MissingKey(key)
  {
    var v := GetString(snap, key);
    if IsEmpty(v) then Err(MissingKey(key)) else Ok(v.value)
  }

  /** Some of the characters that `StringUtils.isBlank` counts as blank (it
      counts others too, such as the Unicode space separators). */
  predicate IsWhitespace(c: char) {
    c == ' ' || c == '\t' || c == '\n' || c == '\r' || c == '\U{000B}' || c == '\U{000C}'
  }

  /** The lookup rejects only the empty string, not a value made of blanks:
      any non-empty all-whitespace value is returned as it is. */
  lemma BlankValueIsReturned(snap: Snapshot, key: string)
    requires key in snap && |snap[key]| > 0
    requires forall i :: 0 <= i < |snap[key]| ==> IsWhitespace(snap[key][i])
    ensures Lookup(snap, key) == Ok(snap[key])
  {
  }

  // ---------------------------------------------------------------------------
  // The four operations on the abstract state

  /** `get()`: a held snapshot is returned as it is; otherwise one load is
      attempted, and its result is stored and returned, or its failure is
      reported with nothing stored. */
  function GetSpec(s: State, res: Resource): (o: Outcome<Snapshot>)
    ensures o.reply.Ok? <==> o.state.instance.Some?
    ensures o.reply.Ok? ==> o.state.instance == Some(o.reply.value)
    ensures s.instance.Some? ==> o.state == s
    ensures s.instance.None? ==> o.state.loads == s.loads + 1
    ensures o.reply.Err? ==> o.reply.error == ConfigLoadError(res.name) && o.state.instance.None?
    ensures s.instance.None? ==> (o.reply.Err? <==> res.load.LoadFailed?)
    ensures s.instance.None? && res.load.Loaded? ==> o.reply == Ok(res.load.contents)
  {
    match s.instance
    case Some(snap) => Outcome(s, Ok(snap))
    case None =>
      match res.load
      case Loaded(snap) => Outcome(State(Some(snap), s.loads + 1), Ok(snap))
      case LoadFailed => Outcome(State(None, s.loads + 1), Err(ConfigLoadError(res.name)))
  }

  /** `setProperty(p)`: the held snapshot becomes `p`, whatever it was; no load
      is attempted. */
  function SetSpec(s: State, p: Snapshot): (t: State)
    ensures t.instance == Some(p) && t.loads == s.loads
  {
    s.(instance := Some(p))
  }

  /** `getProperty()`: the implicit `get()`, then the whole snapshot. */
  function GetPropertiesSpec(s: State, res: Resource): (o: Outcome<Snapshot>)
    ensures o.state == GetSpec(s, res).state
    ensures o.reply.Ok? <==> o.state.instance.Some?
    ensures o.reply.Ok? ==> o.state.instance == Some(o.reply.value)
    ensures s.instance.Some? ==> o.reply == Ok(s.instance.value)
    ensures o.reply.Err? ==> o.reply.error == ConfigLoadError(res.name)
  {
    var g := GetSpec(s, res);
    match g.reply
    case Err(e) => Outcome(g.state, Err(e))
    case Ok(_) => Outcome(g.state, Ok(g.state.instance.value))
  }

  /** `getProperty(key)`: the implicit `get()`, whose failure is reported before
      any lookup, then the fail-fast lookup in the snapshot it leaves. */
  function GetPropertySpec(s: State, res: Resource, key: string): (o: Outcome<string>)
    ensures o.state == GetSpec(s, res).state
    ensures GetSpec(s, res).reply.Err? ==> o.reply == Err(ConfigLoadError(res.name))
    ensures o.state.instance.Some? ==> o.reply == Lookup(o.state.instance.value, key)
    ensures o.reply.Ok? ==> o.reply.value != ""
  {
    var g := GetSpec(s, res);
    match g.reply
    case Err(e) => Outcome(g.state, Err(e))
    case Ok(_) => Outcome(g.state, Lookup(g.state.instance.value, key))
  }

  /** Calling `get()` a second time returns what the first call returned and
      changes nothing, when the first call succeeded. */
  lemma GetIsIdempotent(s: State, res: Resource)
    requires GetSpec(s, res).reply.Ok?
    ensures GetSpec(GetSpec(s, res).state, res) == GetSpec(s, res)
  {
  }

  /** With nothing held and a resource that loads `m`, `getProperty(key)` is the
      fail-fast lookup of `key` in `m`: every key of the resource with a
      non-empty value reads as that value. */
  lemma LoadedResourceLookup(s: State, m: Snapshot, name: string, key: string)
    requires s.instance.None?
    ensures GetPropertySpec(s, Resource(name, Loaded(m)), key).reply == Lookup(m, key)
    ensures key in m && m[key] != "" ==> GetPropertySpec(s, Resource(name, Loaded(m)), key).reply == Ok(m[key])
  {
  }

  /** After a failed load nothing is cached, so the next `get()` tries the load
      again. */
  lemma FailedLoadIsRetried(s: State, res: Resource)
    requires GetSpec(s, res).reply.Err?
    ensures GetSpec(GetSpec(s, res).state, res).state.loads == s.loads + 2
  {
  }

  /** After `setProperty(p)`, `getProperty()` returns exactly `p`, with no load. */
  lemma SetThenGetProperties(s: State, res: Resource, p: Snapshot)
    ensures GetPropertiesSpec(SetSpec(s, p), res) == Outcome(SetSpec(s, p), Ok(p))
  {
  }

  /** After `setProperty(p)`, `getProperty(key)` is the lookup of `key` in `p`. */
  lemma SetThenGetProperty(s: State, res: Resource, p: Snapshot, key: string)
    ensures GetPropertySpec(SetSpec(s, p), res, key) == Outcome(SetSpec(s, p), Lookup(p, key))
  {
  }

  // ---------------------------------------------------------------------------
  // Sequences of calls

  /** A call to one of the four entry points. */
  datatype Call = CallGet | CallSetProperty(p: Snapshot) | CallGetProperties | CallGetProperty(key: string)

  /** The state one call leaves behind. */
  function Step(s: State, res: Resource, c: Call): (t: State) {
    match c
    case CallGet => GetSpec(s, res).state
    case CallSetProperty(p) => SetSpec(s, p)
    case CallGetProperties => GetPropertiesSpec(s, res).state
    case CallGetProperty(key) => GetPropertySpec(s, res, key).state
  }

  /** The state a sequence of calls leaves behind, made one after the other. */
  function Run(s: State, res: Resource, calls: seq<Call>): (t: State)
    decreases |calls|
  {
    if calls == [] then s else Run(Step(s, res, calls[0]), res, calls[1..])
  }

  predicate NoSetProperty(calls: seq<Call>) {
    forall i :: 0 <= i < |calls| ==> !calls[i].CallSetProperty?
  }

  /** The number of calls that read the configuration before the first
      `setProperty` (all of them when there is none). */
  function ReadsBeforeSet(calls: seq<Call>): (n: nat)
    decreases |calls|
  {
    if calls == [] || calls[0].CallSetProperty? then 0 else 1 + ReadsBeforeSet(calls[1..])
  }

  /** Once a snapshot is held, no call ever loads the resource again and a
      snapshot stays held. */
  lemma {:induction false} CachedNeverReloads(s: State, res: Resource, calls: seq<Call>)
    requires s.instance.Some?
    ensures Run(s, res, calls).instance.Some?
    ensures Run(s, res, calls).loads == s.loads
    decreases |calls|
  {
    if calls != [] {
      CachedNeverReloads(Step(s, res, calls[0]), res, calls[1..]);
    }
  }

  /** When the resource loads, it is loaded at most once over any sequence of
      calls, and not at all when a snapshot is already held. */
  lemma {:induction false} LoadAtMostOnce(s: State, res: Resource, calls: seq<Call>)
    requires res.load.Loaded?
    ensures Run(s, res, calls).loads <= s.loads + 1
    ensures s.instance.Some? ==> Run(s, res, calls).loads == s.loads
    decreases |calls|
  {
    if s.instance.Some? {
      CachedNeverReloads(s, res, calls);
    } else if calls != [] {
      var t := Step(s, res, calls[0]);
      assert t.instance.Some?;
      CachedNeverReloads(t, res, calls[1..]);
    }
  }

  /** When the resource fails to load, every read of the configuration made
      before the first `setProperty` attempts the load again. */
  lemma {:induction false} FailingLoadRetriedEveryRead(s: State, res: Resource, calls: seq<Call>)
    requires res.load.LoadFailed? && s.instance.None?
    ensures Run(s, res, calls).loads == s.loads + ReadsBeforeSet(calls)
    decreases |calls|
  {
    if calls != [] {
      var t := Step(s, res, calls[0]);
      if calls[0].CallSetProperty? {
        CachedNeverReloads(t, res, calls[1..]);
      } else {
        FailingLoadRetriedEveryRead(t, res, calls[1..]);
      }
    }
  }

  /** Only `setProperty` changes a held snapshot: reads leave it as it is. */
  lemma {:induction false} SnapshotStableWithoutSet(s: State, res: Resource, calls: seq<Call>)
    requires s.instance.Some? && NoSetProperty(calls)
    ensures Run(s, res, calls) == s
    decreases |calls|
  {
    if calls != [] {
      assert !calls[0].CallSetProperty?;
      assert NoSetProperty(calls[1..]) by {
        forall i | 0 <= i < |calls[1..]| ensures !calls[1..][i].CallSetProperty? {
          assert calls[1..][i] == calls[i + 1];
        }
      }
      SnapshotStableWithoutSet(Step(s, res, calls[0]), res, calls[1..]);
    }
  }

  /** The last `setProperty` wins: whatever came before it, the snapshot it
      stored is what `getProperty()` returns after any reads that follow. */
  lemma ReplaceWins(s: State, res: Resource, before: seq<Call>, p: Snapshot, after: seq<Call>)
    requires NoSetProperty(after)
    ensures Run(Run(s, res, before), res, [CallSetProperty(p)] + after).instance == Some(p)
    ensures GetPropertiesSpec(Run(Run(s, res, before), res, [CallSetProperty(p)] + after), res).reply == Ok(p)
  {
    var m := Run(s, res, before);
    assert ([CallSetProperty(p)] + after)[1..] == after;
    SnapshotStableWithoutSet(SetSpec(m, p), res, after);
  }

  /** Repeated `get()` calls return identical contents: after a successful
      `get()`, any reads that follow leave a `get()` returning the same
      snapshot. */
  lemma RepeatedGetAgrees(s: State, res: Resource, calls: seq<Call>)
    requires GetSpec(s, res).reply.Ok? && NoSetProperty(calls)
    ensures GetSpec(Run(GetSpec(s, res).state, res, calls), res).reply == GetSpec(s, res).reply
  {
    SnapshotStableWithoutSet(GetSpec(s, res).state, res, calls);
  }

  /** The resource holds `db.host=localhost` and a blank `db.port`: the host is
      returned, the blank port and an absent key are both "not set". */
  lemma ScenarioBlankAndMissingKeys()
    ensures var res := Resource("config.properties", Loaded(map["db.host" := "localhost", "db.port" := ""]));
      && GetPropertySpec(Fresh, res, "db.host").reply == Ok("localhost")
      && GetPropertySpec(Fresh, res, "db.port").reply == Err(MissingKey("db.port"))
      && GetPropertySpec(Fresh, res, "db.missing").reply == Err(MissingKey("db.missing"))
  {
  }

  /** The resource fails to load: the first `get()` fails naming it, and after
      `setProperty({a=1})` the key `a` reads as `1`. */
  lemma ScenarioMissingResourceThenSet()
    ensures var res := Resource("config.properties", LoadFailed);
      && GetSpec(Fresh, res).reply == Err(ConfigLoadError("config.properties"))
      && GetPropertySpec(SetSpec(GetSpec(Fresh, res).state, map["a" := "1"]), res, "a").reply == Ok("1")
  {
  }

  // ---------------------------------------------------------------------------
  // The cache object

  /** The cache as an object: `instance` is the field the source updates in
      place; `loadAttempts` counts the attempts to load `resource`. */
  class PropConfig {
    var instance: Option<Snapshot>
    ghost var loadAttempts: nat
    const resource: Resource

    /** The abstract state of the object. */
    ghost function Model(): State
      reads this
    {
      State(instance, loadAttempts)
    }

    /** A cache holding nothing, backed by `resource`. */
    constructor (resource: Resource)
      ensures Model() == Fresh && this.resource == resource
    {
      this.resource := resource;
      instance := None;
      loadAttempts := 0;
    }

    /** `get()`. */
    method Get() returns (r: Result<Snapshot>)
      modifies this
      ensures Outcome(Model(), r) == GetSpec(old(Model()), resource)
      ensures old(instance).Some? ==> r == Ok(old(instance).value) && unchanged(this)
      ensures r.Ok? ==> instance == Some(r.value)
      ensures r.Err? ==> r.error == ConfigLoadError(resource.name) && instance.None?
    {
      if instance.None? {
        loadAttempts := loadAttempts + 1;
        match resource.load
        case LoadFailed =>
          return Err(ConfigLoadError(resource.name));
        case Loaded(snap) =>
          instance := Some(snap);
      }
      r := Ok(instance.value);
    }

    /** `setProperty(prop)`. */
    method SetProperty(prop: Snapshot)
      modifies this
      ensures Model() == SetSpec(old(Model()), prop)
      ensures instance == Some(prop) && loadAttempts == old(loadAttempts)
    {
      instance := Some(prop);
    }

    /** `getProperty()`: the whole snapshot. */
    method GetProperties() returns (r: Result<Snapshot>)
      modifies this
      ensures Outcome(Model(), r) == GetPropertiesSpec(old(Model()), resource)
      ensures old(instance).Some? ==> r == Ok(old(instance).value) && unchanged(this)
    {
      var g := Get();
      if g.Err? {
        return Err(g.error);
      }
      r := Ok(instance.value);
    }

    /** `getProperty(key)`: the fail-fast lookup. */
    method GetProperty(key: string) returns (r: Result<string>)
      modifies this
      ensures Outcome(Model(), r) == GetPropertySpec(old(Model()), resource, key)
      ensures old(instance).Some? ==> r == Lookup(old(instance).value, key) && unchanged(this)
      ensures r.Ok? ==> r.value != ""
    {
      var g := Get();
      if g.Err? {
        return Err(g.error);
      }
      r := Lookup(instance.value, key);
    }
  }
}
