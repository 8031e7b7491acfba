/** The host's entity store as the controller drives it, and one reconciliation pass
    (`startClient`, `mapDevice`, OpenAIController.js:73-114 and 216-260) as a function on
    the store: mark every entity dead, upsert the system entity and each valid model
    entry, purge what is still dead. */
module Entities {
  import opened Values
  import opened Keys
  import opened Attributes
  import opened Config

  /** A host entity as far as the controller touches it. `refreshes` counts the calls to
      `refreshCapabilities`, `deferred` is the depth of open `deferNotifies(true)` scopes. */
  datatype Entity = Entity(
    id: string,
    name: Option<string>,
    capabilities: set<string>,
    attributes: Attributes,
    primary: Option<string>,
    dead: bool,
    hash: Option<int>,
    refreshes: nat,
    deferred: nat)

  /** The store `this.entities`, keyed by entity id. */
  type Store = map<string, Entity>

  /** `getEntity` followed by `setName` for an id the store does not know. */
  function NewEntity(id: string, name: Option<string>): Entity {
    Entity(id, name, {}, map[], None, false, None, 0, 0)
  }

  /** The entity `mapDevice` works on: the stored one, or a new one. */
  function Found(m: Store, id: string, name: Option<string>): Entity {
    if id in m then m[id] else NewEntity(id, name)
  }

  /** `this.entities.forEach(e => e.markDead(true))`. */
  function MarkAllDead(m: Store): Store {
    map k | k in m :: m[k].(dead := true)
  }

  /** The host's `purgeDeadEntities`. */
  function PurgeDead(m: Store): Store {
    map k | k in m && !m[k].dead :: m[k]
  }

  /** What `mapDevice` does to the entity it found or created, with no host fault: revive it,
      extend its capabilities, refresh them when the version hash changed, diff the
      attributes, set the primary attribute. Every notification scope it opens is closed
      again, so the defer depth is unchanged. */
  function Revived(e: Entity, caps: set<string>, primary: string, us: seq<Update>, hash: int): (r: Entity)
    ensures !r.dead && r.hash == Some(hash)
    ensures r.refreshes == e.refreshes + (if e.hash != Some(hash) then 1 else 0)
    ensures r.capabilities == e.capabilities + caps
    ensures r.attributes == Apply(e.attributes, us)
    ensures r.id == e.id && r.name == e.name && r.deferred == e.deferred
    ensures r.primary == if primary != "" then Some(ReplaceNs(primary)) else e.primary
  {
    e.(dead := false,
       capabilities := e.capabilities + caps,
       refreshes := if e.hash != Some(hash) then e.refreshes + 1 else e.refreshes,
       hash := Some(hash),
       attributes := Apply(e.attributes, us),
       primary := if primary != "" then Some(ReplaceNs(primary)) else e.primary)
  }

  /** `mapDevice(id, name, caps, primary, us)` on the store: only entity `id` changes, and a
      new entity takes `name` (an existing one keeps its name). */
  function Mapped(m: Store, id: string, name: Option<string>, caps: set<string>, primary: string,
                  us: seq<Update>, hash: int): Store
  {
    m[id := Revived(Found(m, id, name), caps, primary, us, hash)]
  }

  /** The system entity's attributes (OpenAIController.js:80-83). */
  const SystemUpdates: seq<Update> := [("sys_system.state", Bool(false))]

  /** A valid model entry's attributes (OpenAIController.js:96-100). */
  function EntryUpdates(c: ModelConfig): seq<Update>
    requires c.service.Some?
  {
    [(MODEL_KEY, c.model), (SERVICE_KEY, Str(Lower(c.service.value)))]
  }

  lemma EntryUpdatesDistinct(c: ModelConfig)
    requires c.service.Some?
    ensures DistinctTargets(EntryUpdates(c))
  {
    ModelKey();
    ServiceKey();
    LegacyModelAttrDiffers();
  }

  /** `mapDevice` for one valid entry of `config.models`. */
  function MapEntry(m: Store, c: ModelConfig, hash: int): Store
    requires IsValid(c)
  {
    Mapped(m, c.id.value, c.name, {NS}, MODEL_KEY, EntryUpdates(c), hash)
  }

  /** The loop at OpenAIController.js:94-104 over the first entries of `config.models`. */
  function MapEntries(m: Store, cs: seq<ModelConfig>, hash: int): Store
    decreases |cs|
  {
    if cs == [] then m
    else
      var prev, c := MapEntries(m, cs[..|cs| - 1], hash), cs[|cs| - 1];
      if IsValid(c) then MapEntry(prev, c, hash) else prev
  }

  /** The system entity's name: `config.name ?? "OpenAI Controller"`. */
  function SystemName(cfg: ControllerConfig): string {
    match cfg.name
    case Some(n) => n
    case None => "OpenAI Controller"
  }

  /** One complete pass of `startClient` for a controller that is not stopping. */
  function Pass(m: Store, systemId: string, cfg: ControllerConfig, hash: int): Store {
    var marked := MarkAllDead(m);
    var withSystem := Mapped(marked, systemId, Some(SystemName(cfg)), {"sys_system"}, "sys_system.state",
                             SystemUpdates, hash);
    var mapped := if cfg.models.Some? then MapEntries(withSystem, cfg.models.value, hash) else withSystem;
    PurgeDead(mapped)
  }

  /** The ids a pass keeps. */
  function Expected(systemId: string, cfg: ControllerConfig): set<string> {
    {systemId} + if cfg.models.Some? then ValidIds(cfg.models.value) else {}
  }

  /** Mapping the entries adds exactly the valid ids, revives them, stamps them with the
      current hash and leaves every other entity as it was. */
  lemma {:induction false} MapEntriesShape(m: Store, cs: seq<ModelConfig>, hash: int)
    ensures MapEntries(m, cs, hash).Keys == m.Keys + ValidIds(cs)
    ensures forall k :: k in ValidIds(cs) ==>
      !MapEntries(m, cs, hash)[k].dead && MapEntries(m, cs, hash)[k].hash == Some(hash)
    ensures forall k :: k in m && k !in ValidIds(cs) ==> MapEntries(m, cs, hash)[k] == m[k]
    decreases |cs|
  {
    if cs != [] {
      MapEntriesShape(m, cs[..|cs| - 1], hash);
    }
  }

  /** An invalid entry creates or changes no entity: only the valid entries matter. */
  lemma {:induction false} InvalidEntriesIgnored(m: Store, cs: seq<ModelConfig>, hash: int)
    ensures MapEntries(m, cs, hash) == MapEntries(m, ValidOnly(cs), hash)
    decreases |cs|
  {
    if cs != [] {
      var p, c := cs[..|cs| - 1], cs[|cs| - 1];
      InvalidEntriesIgnored(m, p, hash);
      if IsValid(c) {
        MapEntriesSnoc(m, ValidOnly(p), c, hash);
        calc {
          MapEntries(m, cs, hash);
          MapEntry(MapEntries(m, p, hash), c, hash);
          MapEntry(MapEntries(m, ValidOnly(p), hash), c, hash);
          MapEntries(m, ValidOnly(p) + [c], hash);
          { assert ValidOnly(cs) == ValidOnly(p) + [c]; }
          MapEntries(m, ValidOnly(cs), hash);
        }
      } else {
        assert ValidOnly(cs) == ValidOnly(p) + [];
        assert ValidOnly(p) + [] == ValidOnly(p);
        assert MapEntries(m, cs, hash) == MapEntries(m, p, hash);
      }
    }
  }

  /** One more entry of the list: a valid one is mapped, an invalid one changes nothing. */
  lemma MapEntriesStep(m: Store, cs: seq<ModelConfig>, i: int, hash: int)
    requires 0 <= i < |cs|
    ensures MapEntries(m, cs[..i + 1], hash)
         == if IsValid(cs[i]) then MapEntry(MapEntries(m, cs[..i], hash), cs[i], hash) else MapEntries(m, cs[..i], hash)
  {
    assert cs[..i + 1][..i] == cs[..i];
  }

  lemma MapEntriesSnoc(m: Store, cs: seq<ModelConfig>, c: ModelConfig, hash: int)
    requires IsValid(c)
    ensures MapEntries(m, cs + [c], hash) == MapEntry(MapEntries(m, cs, hash), c, hash)
  {
    assert (cs + [c])[..|cs|] == cs;
  }

  /** Entity `k` carries the lower-cased service of the last valid entry with id `k`. */
  lemma {:induction false} MapEntriesService(m: Store, cs: seq<ModelConfig>, hash: int, k: string)
    requires k in ValidIds(cs)
    ensures k in MapEntries(m, cs, hash)
    ensures Get(MapEntries(m, cs, hash)[k].attributes, SERVICE_ATTR)
         == Str(Lower(LastValid(cs, k).service.value))
    decreases |cs|
  {
    var p, c := cs[..|cs| - 1], cs[|cs| - 1];
    MapEntriesShape(m, cs, hash);
    if IsValid(c) && c.id == Some(k) {
      var prev := MapEntries(m, p, hash);
      var us := EntryUpdates(c);
      EntryUpdatesDistinct(c);
      ApplyEffect(Found(prev, k, c.name).attributes, us, 1);
      ServiceKey();
      LowerNeverIgnored(c.service.value);
    } else {
      MapEntriesService(m, p, hash, k);
    }
  }

  /** Entity `k` carries the `model` of the last valid entry with id `k`, up to the loose
      equality of `null` and `undefined`, unless that model is the sentinel. */
  lemma {:induction false} MapEntriesModel(m: Store, cs: seq<ModelConfig>, hash: int, k: string)
    requires k in ValidIds(cs) && !Ignored(LastValid(cs, k).model)
    ensures k in MapEntries(m, cs, hash)
    ensures Unchanged(Get(MapEntries(m, cs, hash)[k].attributes, MODEL_ATTR), LastValid(cs, k).model)
    decreases |cs|
  {
    var p, c := cs[..|cs| - 1], cs[|cs| - 1];
    MapEntriesShape(m, cs, hash);
    if IsValid(c) && c.id == Some(k) {
      var prev := MapEntries(m, p, hash);
      var us := EntryUpdates(c);
      EntryUpdatesDistinct(c);
      ApplyEffect(Found(prev, k, c.name).attributes, us, 0);
      ModelKey();
    } else {
      MapEntriesModel(m, p, hash, k);
    }
  }

  /** Mapping the entries never writes the attribute `x_openaimodel` that the request
      builder reads (OpenAIController.js:127): it keeps its stored value, and an entity the
      entries create has none. */
  lemma {:induction false} MapEntriesKeepLegacyModel(m: Store, cs: seq<ModelConfig>, hash: int, k: string)
    requires k in MapEntries(m, cs, hash)
    ensures Get(MapEntries(m, cs, hash)[k].attributes, LEGACY_MODEL_ATTR)
         == if k in m then Get(m[k].attributes, LEGACY_MODEL_ATTR) else Undefined
    decreases |cs|
  {
    if cs != [] {
      var p, c := cs[..|cs| - 1], cs[|cs| - 1];
      var prev := MapEntries(m, p, hash);
      if k in prev {
        MapEntriesKeepLegacyModel(m, p, hash, k);
      } else {
        MapEntriesShape(m, p, hash);
      }
      if IsValid(c) && c.id == Some(k) {
        EntryTargets(c);
        ApplyFrame(Found(prev, k, c.name).attributes, EntryUpdates(c), LEGACY_MODEL_ATTR);
      }
    }
  }

  lemma EntryTargets(c: ModelConfig)
    requires c.service.Some?
    ensures LEGACY_MODEL_ATTR !in Targets(EntryUpdates(c))
  {
    ModelKey();
    ServiceKey();
    LegacyModelAttrDiffers();
    var us := EntryUpdates(c);
    forall i | 0 <= i < |us| ensures ReplaceNs(us[i].0) != LEGACY_MODEL_ATTR {
      assert ReplaceNs(us[i].0) == MODEL_ATTR || ReplaceNs(us[i].0) == SERVICE_ATTR;
    }
  }

  /** After a pass the store holds exactly the system entity and the valid entries' ids, all
      alive and stamped with the current hash; every other entity known before is gone. */
  lemma PassShape(m: Store, systemId: string, cfg: ControllerConfig, hash: int)
    ensures Pass(m, systemId, cfg, hash).Keys == Expected(systemId, cfg)
    ensures forall k :: k in Pass(m, systemId, cfg, hash) ==>
      !Pass(m, systemId, cfg, hash)[k].dead && Pass(m, systemId, cfg, hash)[k].hash == Some(hash)
    ensures forall k :: k in m && k !in Expected(systemId, cfg) ==> k !in Pass(m, systemId, cfg, hash)
  {
    if cfg.models.Some? {
      PassWithModelsShape(m, systemId, cfg, hash);
    } else {
      PassWithoutModelsShape(m, systemId, cfg, hash);
    }
  }

  /** PassShape for a configuration with a `models` list. */
  lemma PassWithModelsShape(m: Store, systemId: string, cfg: ControllerConfig, hash: int)
    requires cfg.models.Some?
    ensures Pass(m, systemId, cfg, hash).Keys == Expected(systemId, cfg)
    ensures forall k :: k in Pass(m, systemId, cfg, hash) ==>
      !Pass(m, systemId, cfg, hash)[k].dead && Pass(m, systemId, cfg, hash)[k].hash == Some(hash)
  {
    var cs := cfg.models.value;
    var withSystem := Mapped(MarkAllDead(m), systemId, Some(SystemName(cfg)), {"sys_system"}, "sys_system.state",
                             SystemUpdates, hash);
    SystemShape(m, systemId, SystemName(cfg), hash);
    MapEntriesShape(withSystem, cs, hash);
    assert Pass(m, systemId, cfg, hash) == PurgeDead(MapEntries(withSystem, cs, hash));
    PurgeShape(MapEntries(withSystem, cs, hash), {systemId} + ValidIds(cs), m.Keys, hash);
  }

  /** PassShape for a configuration without a `models` list: only the system entity stays. */
  lemma PassWithoutModelsShape(m: Store, systemId: string, cfg: ControllerConfig, hash: int)
    requires cfg.models.None?
    ensures Pass(m, systemId, cfg, hash).Keys == Expected(systemId, cfg)
    ensures forall k :: k in Pass(m, systemId, cfg, hash) ==>
      !Pass(m, systemId, cfg, hash)[k].dead && Pass(m, systemId, cfg, hash)[k].hash == Some(hash)
  {
    var withSystem := Mapped(MarkAllDead(m), systemId, Some(SystemName(cfg)), {"sys_system"}, "sys_system.state",
                             SystemUpdates, hash);
    assert Pass(m, systemId, cfg, hash) == PurgeDead(withSystem);
    SystemShape(m, systemId, SystemName(cfg), hash);
    PurgeShape(withSystem, {systemId}, m.Keys, hash);
  }

  /** After marking every entity dead and mapping the system entity, only the system entity
      is alive. */
  lemma SystemShape(m: Store, systemId: string, name: string, hash: int)
    ensures var w := Mapped(MarkAllDead(m), systemId, Some(name), {"sys_system"}, "sys_system.state",
                            SystemUpdates, hash);
      && w.Keys == m.Keys + {systemId}
      && !w[systemId].dead && w[systemId].hash == Some(hash)
      && forall k :: k in w && k != systemId ==> w[k].dead
  {
  }

  /** Purging a store whose live entities are exactly `live`, all stamped. */
  lemma PurgeShape(mapped: Store, live: set<string>, rest: set<string>, hash: int)
    requires mapped.Keys == rest + live
    requires forall k :: k in mapped && k !in live ==> mapped[k].dead
    requires forall k :: k in live ==> !mapped[k].dead && mapped[k].hash == Some(hash)
    ensures PurgeDead(mapped).Keys == live
    ensures forall k :: k in PurgeDead(mapped) ==> !PurgeDead(mapped)[k].dead && PurgeDead(mapped)[k].hash == Some(hash)
  {
  }

  /** After a pass, a valid entry's entity carries its lower-cased service, so a configured
      service of "OpenAI" dispatches as "openai". */
  lemma PassService(m: Store, systemId: string, cfg: ControllerConfig, hash: int, k: string)
    requires cfg.models.Some? && k in ValidIds(cfg.models.value)
    ensures k in Pass(m, systemId, cfg, hash)
    ensures Get(Pass(m, systemId, cfg, hash)[k].attributes, SERVICE_ATTR)
         == Str(Lower(LastValid(cfg.models.value, k).service.value))
  {
    var marked := MarkAllDead(m);
    var withSystem := Mapped(marked, systemId, Some(SystemName(cfg)), {"sys_system"}, "sys_system.state",
                             SystemUpdates, hash);
    MapEntriesShape(withSystem, cfg.models.value, hash);
    MapEntriesService(withSystem, cfg.models.value, hash, k);
  }

  /** After a pass, a valid entry's entity carries that entry's `model` under
      `x_openai.model`, unless the model is the sentinel. */
  lemma PassModel(m: Store, systemId: string, cfg: ControllerConfig, hash: int, k: string)
    requires cfg.models.Some? && k in ValidIds(cfg.models.value)
    requires !Ignored(LastValid(cfg.models.value, k).model)
    ensures k in Pass(m, systemId, cfg, hash)
    ensures Unchanged(Get(Pass(m, systemId, cfg, hash)[k].attributes, MODEL_ATTR),
                      LastValid(cfg.models.value, k).model)
  {
    var marked := MarkAllDead(m);
    var withSystem := Mapped(marked, systemId, Some(SystemName(cfg)), {"sys_system"}, "sys_system.state",
                             SystemUpdates, hash);
    MapEntriesShape(withSystem, cfg.models.value, hash);
    MapEntriesModel(withSystem, cfg.models.value, hash, k);
  }

  /** No pass writes `x_openaimodel`: after a pass it holds what it held before, and
      nothing on an entity the pass created. */
  lemma PassKeepsLegacyModel(m: Store, systemId: string, cfg: ControllerConfig, hash: int, k: string)
    requires k in Expected(systemId, cfg)
    ensures k in Pass(m, systemId, cfg, hash)
    ensures Get(Pass(m, systemId, cfg, hash)[k].attributes, LEGACY_MODEL_ATTR)
         == if k in m then Get(m[k].attributes, LEGACY_MODEL_ATTR) else Undefined
  {
    PassShape(m, systemId, cfg, hash);
    var marked := MarkAllDead(m);
    var withSystem := Mapped(marked, systemId, Some(SystemName(cfg)), {"sys_system"}, "sys_system.state",
                             SystemUpdates, hash);
    SystemStateKey();
    assert LEGACY_MODEL_ATTR !in Targets(SystemUpdates);
    ApplyFrame(Found(marked, systemId, Some(SystemName(cfg))).attributes, SystemUpdates, LEGACY_MODEL_ATTR);
    if cfg.models.Some? {
      MapEntriesKeepLegacyModel(withSystem, cfg.models.value, hash, k);
    }
  }

  /** Every entity of the store carries the version hash `hash`. */
  predicate Stamped(m: Store, hash: int) {
    forall k :: k in m ==> m[k].hash == Some(hash)
  }

  /** Entities present in both stores have had their capabilities refreshed equally often. */
  predicate SameRefreshes(before: Store, after: Store) {
    forall k :: k in before && k in after ==> after[k].refreshes == before[k].refreshes
  }

  /** A pass whose hash every entity already carries calls `refreshCapabilities` on none of
      them, and leaves every entity stamped. */
  lemma PassWithKnownHash(m: Store, systemId: string, cfg: ControllerConfig, hash: int)
    requires Stamped(m, hash)
    ensures Stamped(Pass(m, systemId, cfg, hash), hash)
    ensures SameRefreshes(m, Pass(m, systemId, cfg, hash))
  {
    var marked := MarkAllDead(m);
    assert Stamped(marked, hash) && SameRefreshes(m, marked);
    var withSystem := Mapped(marked, systemId, Some(SystemName(cfg)), {"sys_system"}, "sys_system.state",
                             SystemUpdates, hash);
    MappedKeepsRefreshes(marked, systemId, Some(SystemName(cfg)), {"sys_system"}, "sys_system.state",
                         SystemUpdates, hash);
    var mapped := withSystem;
    if cfg.models.Some? {
      EntriesKeepRefreshes(withSystem, cfg.models.value, hash);
      mapped := MapEntries(withSystem, cfg.models.value, hash);
    }
    assert Stamped(mapped, hash) && SameRefreshes(withSystem, mapped);
    assert SameRefreshes(m, mapped);
  }

  /** Corollary: running the same pass twice refreshes capabilities only the first time. */
  lemma PassRefreshesOnce(m: Store, systemId: string, cfg: ControllerConfig, hash: int)
    ensures var once := Pass(m, systemId, cfg, hash);
      SameRefreshes(once, Pass(once, systemId, cfg, hash))
  {
    PassShape(m, systemId, cfg, hash);
    PassWithKnownHash(Pass(m, systemId, cfg, hash), systemId, cfg, hash);
  }

  lemma MappedKeepsRefreshes(m: Store, id: string, name: Option<string>, caps: set<string>, primary: string,
                             us: seq<Update>, hash: int)
    requires Stamped(m, hash)
    ensures Stamped(Mapped(m, id, name, caps, primary, us, hash), hash)
    ensures SameRefreshes(m, Mapped(m, id, name, caps, primary, us, hash))
  {
  }

  /** Helper for PassWithKnownHash: entries mapped onto a stamped store refresh nothing. */
  lemma {:induction false} EntriesKeepRefreshes(m: Store, cs: seq<ModelConfig>, hash: int)
    requires Stamped(m, hash)
    ensures Stamped(MapEntries(m, cs, hash), hash)
    ensures SameRefreshes(m, MapEntries(m, cs, hash))
    decreases |cs|
  {
    if cs != [] {
      var p, c := cs[..|cs| - 1], cs[|cs| - 1];
      var prev := MapEntries(m, p, hash);
      MapEntriesShape(m, p, hash);
      EntriesKeepRefreshes(m, p, hash);
      if IsValid(c) {
        MappedKeepsRefreshes(prev, c.id.value, c.name, {NS}, MODEL_KEY, EntryUpdates(c), hash);
      }
    }
  }
}
