/** The controller object: its entity store, the `models` map, the stopping flag, the
    failure counter and the status it reports to the host, with the methods of
    OpenAIController.js that update them. Each method is proved against the functions that
    specify it. */
module Controller {
  import opened Values
  import opened Keys
  import opened Attributes
  import opened Config
  import opened Entities
  import opened Requests
  import opened Prompt
  import opened Backoff

  /** The status the host shows for the controller: set by its `online()` and `offline()`. */
  datatype Status = Starting | Online | Offline

  /** What `performOnEntity` did. */
  datatype Outcome =
    | PromptDone(result: PromptResult)
    /** `sys_system.restart`: the stopping flag is cleared and a pass is run. */
    | Restarted
    /** Any other action is handed to the host's own `performOnEntity`. */
    | Delegated(action: string)

  const PROMPT_ACTION: string := NS + ".prompt"
  const RESTART_ACTION: string := "sys_system.restart"

  class OpenAIController {
    /** The id of the controller's system entity. */
    const systemId: string
    const config: ControllerConfig
    /** The version hash of the host's capability data and the controller version. */
    const hash: int

    var entities: Store
    /** The id-to-entry map; `None` until the first pass with a `models` list. */
    var models: Option<map<string, ModelConfig>>
    var stopping: bool
    var failures: nat
    var status: Status
    /** The last delay handed to `startDelay`. */
    var nextDelay: Option<int>

    constructor(systemId: string, config: ControllerConfig, hash: int, entities: Store)
      ensures this.systemId == systemId && this.config == config && this.hash == hash
      ensures this.entities == entities && models.None?
      ensures !stopping && failures == 0 && status == Starting && nextDelay.None?
    {
      this.systemId := systemId;
      this.config := config;
      this.hash := hash;
      this.entities := entities;
      models := None;
      stopping := false;
      failures := 0;
      status := Starting;
      nextDelay := None;
    }

    /** OpenAIController.js:262-288. A missing entity or attribute object changes nothing.
        Otherwise the entity is revived and every property is diffed against the stored
        value; `written` lists the keys passed to `setAttribute`, in call order. */
    method UpdateEntityAttributes(id: string, attrs: Option<seq<Update>>) returns (written: seq<string>)
      modifies this`entities
      ensures id in old(entities) && attrs.Some? ==>
        && entities == old(entities)[id := old(entities)[id].(
             dead := false, attributes := Apply(old(entities)[id].attributes, attrs.value))]
        && written == Written(old(entities)[id].attributes, attrs.value)
      ensures id !in old(entities) || attrs.None? ==> entities == old(entities) && written == []
    {
      written := [];
      if id !in entities || attrs.None? {
        return;
      }
      var us := attrs.value;
      ghost var e0 := entities[id];
      entities := entities[id := entities[id].(deferred := entities[id].deferred + 1, dead := false)];
      var i := 0;
      while i < |us|
        invariant 0 <= i <= |us|
        invariant entities == old(entities)[id := e0.(
          deferred := e0.deferred + 1, dead := false, attributes := Apply(e0.attributes, us[..i]))]
        invariant written == Written(e0.attributes, us[..i])
      {
        var u := us[i];
        assert us[..i + 1][..i] == us[..i];
        if !Ignored(u.1) {
          var key := ReplaceNs(u.0);
          var value := Get(entities[id].attributes, key);
          if !Unchanged(value, u.1) {
            entities := entities[id := entities[id].(attributes := entities[id].attributes[key := u.1])];
            written := written + [key];
          }
        }
        i := i + 1;
      }
      assert us[..i] == us;
      entities := entities[id := entities[id].(deferred := entities[id].deferred - 1)];
    }

    /** OpenAIController.js:216-260, without a host fault: the store becomes `Mapped`. */
    method MapDevice(id: string, name: Option<string>, caps: set<string>, primary: string, us: seq<Update>)
      modifies this`entities
      ensures entities == Mapped(old(entities), id, name, caps, primary, us, hash)
    {
      var store := entities;
      var e := if id in entities then entities[id] else NewEntity(id, name);
      ghost var e0 := e;
      assert e0 == Found(store, id, name);
      e := e.(deferred := e.deferred + 1, dead := false);
      e := e.(capabilities := e.capabilities + caps);
      if e.hash != Some(hash) {
        e := e.(refreshes := e.refreshes + 1, hash := Some(hash));
      }
      entities := entities[id := e];
      var written := UpdateEntityAttributes(id, Some(us));
      assert entities[id] == e.(dead := false, attributes := Apply(e.attributes, us));
      e := entities[id];
      if primary != "" {
        e := e.(primary := Some(ReplaceNs(primary)));
      }
      e := e.(deferred := e.deferred - 1);
      assert e == Revived(e0, caps, primary, us, hash);
      // Only entity `id` changed since `store` was read.
      entities := store[id := e];
    }

    /** `this.entities.forEach(e => e.markDead(true))` (OpenAIController.js:77). */
    method MarkEntitiesDead()
      modifies this`entities
      ensures entities == MarkAllDead(old(entities))
    {
      var pending := entities.Keys;
      while pending != {}
        invariant pending <= old(entities).Keys && entities.Keys == old(entities).Keys
        invariant forall k :: k in old(entities) ==>
          entities[k] == if k in pending then old(entities)[k] else old(entities)[k].(dead := true)
        decreases |pending|
      {
        var k :| k in pending;
        entities := entities[k := entities[k].(dead := true)];
        pending := pending - {k};
      }
    }

    /** The `reduce` at OpenAIController.js:88-91: every entry is indexed by its id, a later
        entry replacing an earlier one. */
    static method BuildIndex(cs: seq<ModelConfig>) returns (index: map<string, ModelConfig>)
      ensures index == IndexById(cs)
      ensures forall k :: k in index <==> exists i :: 0 <= i < |cs| && Key(cs[i]) == k
    {
      index := map[];
      var i := 0;
      while i < |cs|
        invariant 0 <= i <= |cs| && index == IndexById(cs[..i])
      {
        assert cs[..i + 1][..i] == cs[..i];
        index := index[Key(cs[i]) := cs[i]];
        i := i + 1;
      }
      assert cs[..i] == cs;
      IndexByIdKeys(cs);
    }

    /** The loop at OpenAIController.js:94-104: `mapDevice` for each valid entry, in order. */
    method MapModels(cs: seq<ModelConfig>)
      modifies this`entities
      ensures entities == MapEntries(old(entities), cs, hash)
    {
      ghost var m0 := entities;
      var i := 0;
      while i < |cs|
        invariant 0 <= i <= |cs| && entities == MapEntries(m0, cs[..i], hash)
      {
        var c := cs[i];
        MapEntriesStep(m0, cs, i, hash);
        if IsValid(c) {
          MapDevice(c.id.value, c.name, {NS}, MODEL_KEY, EntryUpdates(c));
        }
        i := i + 1;
      }
      assert cs[..i] == cs;
    }

    /** OpenAIController.js:73-114. A stopping controller does nothing; otherwise the store
        becomes one `Pass` of the old store, `models` indexes every entry of the list, and
        the controller reports itself online. */
    method StartClient()
      modifies this`entities, this`models, this`status
      ensures old(stopping) ==> entities == old(entities) && models == old(models) && status == old(status)
      ensures !old(stopping) ==>
        && entities == Pass(old(entities), systemId, config, hash)
        && models == (if config.models.Some? then Some(IndexById(config.models.value)) else old(models))
        && status == Online
    {
      if stopping {
        return;
      }
      MarkEntitiesDead();
      MapDevice(systemId, Some(SystemName(config)), {"sys_system"}, "sys_system.state", SystemUpdates);
      if config.models.Some? {
        var index := BuildIndex(config.models.value);
        models := Some(index);
        MapModels(config.models.value);
      }
      status := Online;
      entities := PurgeDead(entities);
    }

    /** OpenAIController.js:290-304: one more failure, a capped linear backoff, and offline
        from the third failure on. */
    method OnError()
      modifies this`failures, this`nextDelay, this`status
      ensures failures == old(failures) + 1
      ensures nextDelay == Some(Delay(failures, config.errorInterval))
      ensures status == if failures >= OFFLINE_AFTER then Offline else old(status)
    {
      failures := failures + 1;
      nextDelay := Some(Delay(failures, config.errorInterval));
      if failures >= OFFLINE_AFTER {
        status := Offline;
      }
    }

    /** OpenAIController.js:186-213 on entity `id`, with the network `send`. */
    method PerformOnEntity(id: string, action: string, params: Option<Params>, send: Request -> Response)
      returns (outcome: Outcome)
      requires id in entities
      modifies this`entities, this`models, this`status, this`stopping
      ensures action == PROMPT_ACTION ==>
        && outcome == PromptDone(RunPrompt(id, old(entities)[id].attributes, old(models), params, send))
        && entities == old(entities) && models == old(models) && status == old(status) && stopping == old(stopping)
      ensures action == RESTART_ACTION ==>
        && outcome == Restarted && !stopping
        && entities == Pass(old(entities), systemId, config, hash)
        && models == (if config.models.Some? then Some(IndexById(config.models.value)) else old(models))
        && status == Online
      ensures action != PROMPT_ACTION && action != RESTART_ACTION ==>
        && outcome == Delegated(action)
        && entities == old(entities) && models == old(models) && status == old(status) && stopping == old(stopping)
    {
      if action == PROMPT_ACTION {
        outcome := PromptDone(RunPrompt(id, entities[id].attributes, models, params, send));
      } else if action == RESTART_ACTION {
        stopping := false;
        StartClient();
        outcome := Restarted;
      } else {
        outcome := Delegated(action);
      }
    }
  }
}
