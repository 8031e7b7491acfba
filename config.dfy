/** The controller's configuration: the `models` list (one entry per backend binding), the
    controller's display name and its error interval, and the `models` id-to-entry map that
    every reconciliation pass rebuilds (OpenAIController.js:86-104). */
module Config {
  import opened Values

  /** One entry of `config.models`. Absent fields are `None` or `Undefined`. */
  datatype ModelConfig = ModelConfig(
    id: Option<string>,
    name: Option<string>,
    model: Value,
    service: Option<string>,
    apiKey: Option<string>,
    endpoint: Option<string>,
    maxTokens: Value,
    temperature: Value,
    topP: Value,
    frequencyPenalty: Value,
    presencePenalty: Value,
    stop: Value)

  datatype ControllerConfig = ControllerConfig(
    name: Option<string>,
    models: Option<seq<ModelConfig>>,
    errorInterval: Option<int>)

  /** The test at OpenAIController.js:95: `id`, `model` and `service` are all defined. */
  predicate IsValid(c: ModelConfig) {
    c.id.Some? && !c.model.Undefined? && c.service.Some?
  }

  /** The property key `x[item.id]`: an undefined id is converted to the key "undefined". */
  function Key(c: ModelConfig): string {
    match c.id
    case Some(s) => s
    case None => "undefined"
  }

  /** The `reduce` at OpenAIController.js:88-91, over every entry, valid or not. */
  function IndexById(cs: seq<ModelConfig>): map<string, ModelConfig>
    decreases |cs|
  {
    if cs == [] then map[]
    else IndexById(cs[..|cs| - 1])[Key(cs[|cs| - 1]) := cs[|cs| - 1]]
  }

  /** The map has a key for every entry, invalid ones included, and for no other key. */
  lemma {:induction false} IndexByIdKeys(cs: seq<ModelConfig>)
    ensures forall k :: k in IndexById(cs) <==> exists i :: 0 <= i < |cs| && Key(cs[i]) == k
    decreases |cs|
  {
    if cs != [] {
      var p := cs[..|cs| - 1];
      IndexByIdKeys(p);
      assert forall i :: 0 <= i < |p| ==> p[i] == cs[i];
    }
  }

  /** `models[id]` is the last entry with that key. */
  lemma {:induction false} IndexByIdLastWins(cs: seq<ModelConfig>, j: int)
    requires 0 <= j < |cs|
    requires forall j' :: j < j' < |cs| ==> Key(cs[j']) != Key(cs[j])
    ensures Key(cs[j]) in IndexById(cs) && IndexById(cs)[Key(cs[j])] == cs[j]
    decreases |cs|
  {
    var n := |cs| - 1;
    if j < n {
      var p := cs[..n];
      assert forall i :: 0 <= i < |p| ==> p[i] == cs[i];
      IndexByIdLastWins(p, j);
    }
  }

  /** The ids of the valid entries: the entities a pass keeps alive. */
  function ValidIds(cs: seq<ModelConfig>): set<string>
    decreases |cs|
  {
    if cs == [] then {}
    else
      var c := cs[|cs| - 1];
      ValidIds(cs[..|cs| - 1]) + (if IsValid(c) then {c.id.value} else {})
  }

  lemma {:induction false} ValidIdsMembers(cs: seq<ModelConfig>)
    ensures forall k :: k in ValidIds(cs) <==>
      exists i :: 0 <= i < |cs| && IsValid(cs[i]) && cs[i].id.value == k
    decreases |cs|
  {
    if cs != [] {
      var p := cs[..|cs| - 1];
      ValidIdsMembers(p);
      assert forall i :: 0 <= i < |p| ==> p[i] == cs[i];
    }
  }

  /** The valid entries, in order. */
  function ValidOnly(cs: seq<ModelConfig>): (r: seq<ModelConfig>)
    decreases |cs|
  {
    if cs == [] then []
    else
      var c := cs[|cs| - 1];
      ValidOnly(cs[..|cs| - 1]) + (if IsValid(c) then [c] else [])
  }

  /** The last valid entry with id `k`: the one whose attributes a pass leaves on entity `k`. */
  function LastValid(cs: seq<ModelConfig>, k: string): (c: ModelConfig)
    requires k in ValidIds(cs)
    ensures IsValid(c) && c.id == Some(k) && c in cs
    decreases |cs|
  {
    var c := cs[|cs| - 1];
    if IsValid(c) && c.id == Some(k) then c else LastValid(cs[..|cs| - 1], k)
  }
}
