/**
 * The hotkey configuration held by the renderer (useHotkeys.js): an object from action
 * key to accelerator, an object from action key to its enabled flag, and a gate that
 * holds back persistence until the values stored in the host process have been read.
 * Entries are JavaScript values: the remote record and the caller's arguments are not
 * type-checked, so an accelerator or a flag may be any value.
 */
module Hotkeys {
  import opened Wrappers
  import opened JsValues

  /** The six actions that always have an accelerator entry and an enabled entry. */
  const Actions: set<string> := {"shortcuts", "windows", "palette", "capture", "search", "monitor"}

  /** The built-in accelerators, stored verbatim (no normalisation). */
  const BuiltinHotkeys: map<string, Value> := map[
    "shortcuts" := Str("SUPER + K"),
    "windows" := Str("SUPER + W"),
    "palette" := Str("SUPER + C"),
    "capture" := Str("PRINT"),
    "search" := Str("SUPER + SPACE"),
    "monitor" := Str("SUPER + M")]

  const BuiltinEnabled: map<string, Value> := map[
    "shortcuts" := Bool(true),
    "windows" := Bool(true),
    "palette" := Bool(false),
    "capture" := Bool(false),
    "search" := Bool(true),
    "monitor" := Bool(false)]

  /** The pair `{ hotkeys, enabled }` that is persisted as one record. */
  datatype Config = Config(hotkeys: map<string, Value>, enabled: map<string, Value>)

  /** Which functions the host bridge `window.hotkeys` exposes. */
  datatype HostApi = HostApi(hasGet: bool, hasSet: bool)

  /** How the promise returned by `window.hotkeys.get()` settles. */
  datatype GetOutcome = Resolved(remote: Value) | Rejected

  /** The entries the caller supplies under `name` in an `initial`/`newDefaults` argument. */
  function Given(arg: Value, name: string): (m: map<string, Value>)
    requires arg != Null
  {
    Spread(Field(OrEmptyObject(arg), name))
  }

  /**
   * `{ ...base, ...(v || {}) }`: every entry of `v` replaces or extends `base`, and every
   * key of `base` that `v` does not mention keeps its value.
   */
  function Overlay(base: map<string, Value>, v: Value): (r: map<string, Value>)
    ensures r.Keys == base.Keys + Spread(v).Keys
    ensures forall k :: k in Spread(v) ==> r[k] == Spread(v)[k]
    ensures forall k :: k in base && k !in Spread(v) ==> r[k] == base[k]
  {
    base + Spread(Or(v, Obj(map[])))
  }

  /**
   * `defaults`: the built-in accelerators overlaid with `initial.hotkeys`. Every action
   * keeps an entry; an action the caller does not mention keeps its built-in accelerator.
   */
  function Defaults(initial: Value): (r: map<string, Value>)
    requires initial != Null
    ensures Actions <= r.Keys
    ensures r.Keys == Actions + Given(initial, "hotkeys").Keys
    ensures forall a :: a in Actions && a !in Given(initial, "hotkeys") ==> r[a] == BuiltinHotkeys[a]
    ensures forall k :: k in Given(initial, "hotkeys") ==> r[k] == Given(initial, "hotkeys")[k]
  {
    Overlay(BuiltinHotkeys, Field(OrEmptyObject(initial), "hotkeys"))
  }

  /** `defaultEnabled`: the built-in flags overlaid with `initial.enabled`. */
  function DefaultEnabled(initial: Value): (r: map<string, Value>)
    requires initial != Null
    ensures Actions <= r.Keys
    ensures r.Keys == Actions + Given(initial, "enabled").Keys
    ensures forall a :: a in Actions && a !in Given(initial, "enabled") ==> r[a] == BuiltinEnabled[a]
    ensures forall k :: k in Given(initial, "enabled") ==> r[k] == Given(initial, "enabled")[k]
  {
    Overlay(BuiltinEnabled, Field(OrEmptyObject(initial), "enabled"))
  }

  /**
   * The accelerator entries a remote record contributes: its `hotkeys` object when it has
   * one, otherwise (the legacy flat format) the whole record, `enabled` field included.
   */
  function RemoteHotkeys(remote: Value): map<string, Value> {
    if !IsObject(remote) then map[]
    else if IsObject(Field(remote, "hotkeys")) then Spread(Field(remote, "hotkeys"))
    else Spread(remote)
  }

  /** The flag entries a remote record contributes: its `enabled` object, if it has one. */
  function RemoteEnabled(remote: Value): map<string, Value> {
    if IsObject(remote) && IsObject(Field(remote, "enabled")) then Spread(Field(remote, "enabled"))
    else map[]
  }

  /**
   * The state after the remote record has been read: the remote entries win key by key,
   * and every local key is kept. A record that is not an object changes nothing.
   */
  function Loaded(c: Config, remote: Value): (r: Config)
    ensures !IsObject(remote) ==> r == c
    ensures r.hotkeys.Keys == c.hotkeys.Keys + RemoteHotkeys(remote).Keys
    ensures forall k :: k in RemoteHotkeys(remote) ==> r.hotkeys[k] == RemoteHotkeys(remote)[k]
    ensures forall k :: k in c.hotkeys && k !in RemoteHotkeys(remote) ==> r.hotkeys[k] == c.hotkeys[k]
    ensures r.enabled.Keys == c.enabled.Keys + RemoteEnabled(remote).Keys
    ensures forall k :: k in RemoteEnabled(remote) ==> r.enabled[k] == RemoteEnabled(remote)[k]
    ensures forall k :: k in c.enabled && k !in RemoteEnabled(remote) ==> r.enabled[k] == c.enabled[k]
  {
    if !IsObject(remote) then c
    else
      var hotkeys :=
        if IsObject(Field(remote, "hotkeys")) then c.hotkeys + Spread(Field(remote, "hotkeys"))
        else if Spread(remote) != map[] then c.hotkeys + Spread(remote)
        else c.hotkeys;
      var enabled :=
        if IsObject(Field(remote, "enabled")) then c.enabled + Spread(Field(remote, "enabled"))
        else c.enabled;
      Config(hotkeys, enabled)
  }

  /**
   * `toggleEnabled(key, value)` on the flags: a boolean `value` is stored as it is;
   * anything else stores the negation of the current flag, so a missing flag becomes
   * true. No other key changes.
   */
  function Toggled(e: map<string, Value>, key: string, value: Value): (r: map<string, Value>)
    ensures r.Keys == e.Keys + {key}
    ensures forall k :: k in e && k != key ==> r[k] == e[k]
    ensures value.Bool? ==> r[key] == value
    ensures !value.Bool? && key in e ==> r[key] == Bool(!Truthy(e[key]))
    ensures !value.Bool? && key !in e ==> r[key] == Bool(true)
  {
    if value.Bool? then e[key := value] else e[key := Bool(!Truthy(Get(e, key)))]
  }

  /**
   * `reset(newDefaults)`: the defaults overlaid with `newDefaults.hotkeys` and
   * `newDefaults.enabled`; the current configuration plays no part.
   */
  function ResetConfig(defaults: map<string, Value>, defaultEnabled: map<string, Value>, newDefaults: Value): (r: Config)
    requires newDefaults != Null
    ensures r.hotkeys.Keys == defaults.Keys + Given(newDefaults, "hotkeys").Keys
    ensures forall k :: k in Given(newDefaults, "hotkeys") ==> r.hotkeys[k] == Given(newDefaults, "hotkeys")[k]
    ensures forall k :: k in defaults && k !in Given(newDefaults, "hotkeys") ==> r.hotkeys[k] == defaults[k]
    ensures r.enabled.Keys == defaultEnabled.Keys + Given(newDefaults, "enabled").Keys
    ensures forall k :: k in Given(newDefaults, "enabled") ==> r.enabled[k] == Given(newDefaults, "enabled")[k]
    ensures forall k :: k in defaultEnabled && k !in Given(newDefaults, "enabled") ==> r.enabled[k] == defaultEnabled[k]
  {
    var nd := OrEmptyObject(newDefaults);
    Config(Overlay(defaults, Field(nd, "hotkeys")), Overlay(defaultEnabled, Field(nd, "enabled")))
  }

  /** With no `initial` argument the defaults are exactly the built-in tables. */
  lemma DefaultsWithoutInitial()
    ensures Defaults(Undefined) == BuiltinHotkeys
    ensures DefaultEnabled(Undefined) == BuiltinEnabled
  {
  }

  /** Merging the same remote record a second time changes nothing more. */
  lemma LoadedIdempotent(c: Config, remote: Value)
    ensures Loaded(Loaded(c, remote), remote) == Loaded(c, remote)
  {
  }

  /** A remote record with no entries, object or array, leaves the state as it was. */
  lemma EmptyRemoteChangesNothing(c: Config)
    ensures Loaded(c, Obj(map[])) == c
    ensures Loaded(c, Arr([])) == c
  {
  }

  /**
   * A structured record `{ hotkeys: {...}, enabled: {...} }` merges each part into its
   * own map, and nothing else of the record reaches the accelerators.
   */
  lemma StructuredRecordMerge(c: Config, h: map<string, Value>, e: map<string, Value>, rest: map<string, Value>)
    requires "hotkeys" !in rest && "enabled" !in rest
    ensures Loaded(c, Obj(rest["hotkeys" := Obj(h)]["enabled" := Obj(e)])) == Config(c.hotkeys + h, c.enabled + e)
  {
  }

  /**
   * A legacy record (no `hotkeys` object) is merged whole into the accelerators, so an
   * `enabled` field lands there as an accelerator entry, and is also merged into the
   * flags when it is an object.
   */
  lemma LegacyRecordMerge(c: Config, record: map<string, Value>)
    requires !("hotkeys" in record && IsObject(record["hotkeys"]))
    ensures Loaded(c, Obj(record)).hotkeys == c.hotkeys + record
    ensures "enabled" in record ==> Loaded(c, Obj(record)).hotkeys["enabled"] == record["enabled"]
    ensures "enabled" in record && IsObject(record["enabled"]) ==>
              Loaded(c, Obj(record)).enabled == c.enabled + Spread(record["enabled"])
    ensures !("enabled" in record && IsObject(record["enabled"])) ==> Loaded(c, Obj(record)).enabled == c.enabled
  {
  }

  /**
   * Toggling a boolean flag twice without a value restores it; a non-boolean entry comes
   * back as its truthiness, and a missing one as false.
   */
  lemma ToggleTwice(e: map<string, Value>, key: string, value: Value)
    requires !value.Bool?
    ensures key in e && e[key].Bool? ==> Toggled(Toggled(e, key, value), key, value) == e
    ensures key in e ==> Toggled(Toggled(e, key, value), key, value) == e[key := Bool(Truthy(e[key]))]
    ensures key !in e ==> Toggled(Toggled(e, key, value), key, value) == e[key := Bool(false)]
  {
  }

  /** Setting a flag explicitly is idempotent and forgets the previous flag. */
  lemma ToggleWithValueOverwrites(e: map<string, Value>, key: string, b: bool, c: bool)
    ensures Toggled(Toggled(e, key, Bool(c)), key, Bool(b)) == Toggled(e, key, Bool(b))
  {
  }

  /**
   * `reset()` with no argument restores the defaults exactly, and whatever the argument,
   * the result does not depend on earlier edits.
   */
  lemma ResetWithoutArgument(defaults: map<string, Value>, defaultEnabled: map<string, Value>)
    ensures ResetConfig(defaults, defaultEnabled, Undefined) == Config(defaults, defaultEnabled)
  {
  }

  /**
   * The mount sequence of the hook: first render, the persistence effect of that render,
   * the load effect settling, and the persistence effect of the next render. Nothing is
   * sent before the load. After a resolved `get()` the first payload already holds the
   * stored entries; when `get` is missing or rejects, the first payload is the defaults.
   */
  method Startup(initial: Value, api: HostApi, outcome: GetOutcome)
    returns (beforeLoad: Option<Config>, afterLoad: Option<Config>)
    requires initial != Null
    ensures beforeLoad == None
    ensures afterLoad.Some? <==> api.hasSet
    ensures afterLoad.Some? && api.hasGet && outcome.Resolved? ==>
              afterLoad.value == Loaded(Config(Defaults(initial), DefaultEnabled(initial)), outcome.remote)
    ensures afterLoad.Some? && !(api.hasGet && outcome.Resolved?) ==>
              afterLoad.value == Config(Defaults(initial), DefaultEnabled(initial))
  {
    var state := new HotkeyState(initial, api);
    beforeLoad := state.PersistEffect();
    state.Load(outcome);
    afterLoad := state.PersistEffect();
  }

  /**
   * When `get()` rejects and the bridge has `set`, the `.catch` handler opens the gate
   * all the same, so the next persistence effect writes the defaults over the stored
   * record although nothing was loaded and the user changed nothing.
   */
  method FailedLoadOverwritesStore(initial: Value) returns (sent: Option<Config>)
    requires initial != Null
    ensures sent == Some(Config(Defaults(initial), DefaultEnabled(initial)))
  {
    var state := new HotkeyState(initial, HostApi(true, true));
    state.Load(Rejected);
    sent := state.PersistEffect();
  }

  /**
   * The hook's state. `defaults` and `defaultEnabled` are the memoised defaults that
   * `reset` returns to; `remoteLoaded` opens the persistence gate.
   */
  class HotkeyState {
    var hotkeys: map<string, Value>
    var enabled: map<string, Value>
    var remoteLoaded: bool
    var defaults: map<string, Value>
    var defaultEnabled: map<string, Value>
    const api: HostApi

    /** Every action always has an accelerator entry and an enabled entry. */
    ghost predicate Valid()
      reads this
    {
      && Actions <= hotkeys.Keys
      && Actions <= enabled.Keys
      && Actions <= defaults.Keys
      && Actions <= defaultEnabled.Keys
    }

    /** `useHotkeys(initial)` on the first render: state starts at the defaults, gate closed. */
    constructor (initial: Value, api: HostApi)
      requires initial != Null
      ensures Valid()
      ensures this.api == api
      ensures defaults == Defaults(initial) && defaultEnabled == DefaultEnabled(initial)
      ensures hotkeys == defaults && enabled == defaultEnabled
      ensures !remoteLoaded
    {
      this.api := api;
      defaults := Defaults(initial);
      defaultEnabled := DefaultEnabled(initial);
      hotkeys := Defaults(initial);
      enabled := DefaultEnabled(initial);
      remoteLoaded := false;
    }

    /** The configuration that a persistence call would send. */
    function Current(): (c: Config)
      reads this
      ensures c.hotkeys == hotkeys && c.enabled == enabled
    {
      Config(hotkeys, enabled)
    }

    /**
     * A later render with a new `initial` argument: the memoised defaults follow it,
     * the live configuration does not.
     */
    method Rerender(initial: Value)
      requires Valid() && initial != Null
      modifies this`defaults, this`defaultEnabled
      ensures Valid()
      ensures defaults == Defaults(initial) && defaultEnabled == DefaultEnabled(initial)
      ensures hotkeys == old(hotkeys) && enabled == old(enabled) && remoteLoaded == old(remoteLoaded)
    {
      defaults := Defaults(initial);
      defaultEnabled := DefaultEnabled(initial);
    }

    /**
     * The mount effect that reads the stored configuration. Without a `get` function, or
     * when the call fails, only the gate opens; otherwise the record is merged first.
     */
    method Load(outcome: GetOutcome)
      requires Valid()
      modifies this`hotkeys, this`enabled, this`remoteLoaded
      ensures Valid()
      ensures remoteLoaded
      ensures api.hasGet && outcome.Resolved? ==> Current() == Loaded(old(Current()), outcome.remote)
      ensures !(api.hasGet && outcome.Resolved?) ==> hotkeys == old(hotkeys) && enabled == old(enabled)
    {
      if api.hasGet {
        match outcome {
          case Resolved(remote) =>
            var next := Loaded(Current(), remote);
            hotkeys := next.hotkeys;
            enabled := next.enabled;
            remoteLoaded := true;
          case Rejected =>
            remoteLoaded := true;
        }
      } else {
        remoteLoaded := true;
      }
    }

    /** `setHotkey(key, value)`: only the accelerator of `key` changes. */
    method SetHotkey(key: string, value: Value)
      requires Valid()
      modifies this`hotkeys
      ensures Valid()
      ensures hotkeys.Keys == old(hotkeys).Keys + {key} && hotkeys[key] == value
      ensures forall k :: k in old(hotkeys) && k != key ==> hotkeys[k] == old(hotkeys)[k]
      ensures enabled == old(enabled) && remoteLoaded == old(remoteLoaded)
    {
      hotkeys := hotkeys[key := value];
    }

    /** `toggleEnabled(key, value)`; an omitted `value` is `Undefined`. */
    method ToggleEnabled(key: string, value: Value)
      requires Valid()
      modifies this`enabled
      ensures Valid()
      ensures enabled == Toggled(old(enabled), key, value)
      ensures hotkeys == old(hotkeys) && remoteLoaded == old(remoteLoaded)
    {
      enabled := Toggled(enabled, key, value);
    }

    /** `reset(newDefaults)`; an omitted argument is `Undefined`. Passing `null` throws. */
    method Reset(newDefaults: Value)
      requires Valid() && newDefaults != Null
      modifies this`hotkeys, this`enabled
      ensures Valid()
      ensures Current() == ResetConfig(defaults, defaultEnabled, newDefaults)
      ensures remoteLoaded == old(remoteLoaded)
    {
      var c := ResetConfig(defaults, defaultEnabled, newDefaults);
      hotkeys := c.hotkeys;
      enabled := c.enabled;
    }

    /**
     * The body of the persistence effect: nothing is sent before the gate opens or when
     * the bridge has no `set` function; otherwise exactly `{ hotkeys, enabled }` is sent.
     */
    method PersistEffect() returns (sent: Option<Config>)
      ensures sent.Some? <==> remoteLoaded && api.hasSet
      ensures sent.Some? ==> sent.value.hotkeys == hotkeys && sent.value.enabled == enabled
    {
      if !remoteLoaded {
        return None;
      }
      if api.hasSet {
        sent := Some(Config(hotkeys, enabled));
      } else {
        sent := None;
      }
    }
  }
}
