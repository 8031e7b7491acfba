# reactor-openai controller, modelled in Dafny

`OpenAIController.js` is a Reactor controller. It exposes each configured OpenAI or Azure
OpenAI chat model as an entity of the host, and it answers an `x_openai.prompt` action on
such an entity by calling the chat-completions endpoint. This project models the parts of
the controller that decide what happens:

- **Reconciliation pass** (`startClient`, `mapDevice`, `updateEntityAttributes`).
  - Every entity is marked dead first.
  - The system entity and each valid entry of `config.models` are upserted.
  - Whatever is still dead is purged.
  - The `models` id-to-entry map is rebuilt from every entry.
  - Capabilities are refreshed only when the version hash changed.
  - An attribute is written only when it is not the `@@IGNORED@@` sentinel and differs from the stored value.
- **Key rewriting.** Every `_ns_` in an attribute key or primary-attribute name becomes `x_openai`.
- **Prompt validation.** The text checks of `performOnEntity` run in order. The first failure wins, and nothing is sent.
- **Request building and reply handling** (`callService`). Each generation parameter takes the first truthy value of the call-time parameter, the model entry and a hardcoded default. The switch on the service builds the OpenAI or Azure request. The reply is the first choice's message content, or an HTTP error.
- **Backoff** (`onError`). The failure counter goes up, a capped linear retry delay is computed, and the controller goes offline from the third failure on.

Modules, in dependency order:

- `Values` (`values.dfy`): JavaScript values, truthiness, `||`, `??`, property access, the sentinel, ASCII lower-casing.
- `Keys` (`keys.dfy`): the global `_ns_` replacement.
- `Attributes` (`attributes.dfy`): the attribute diff as functions on an entity's attribute map.
- `Config` (`config.dfy`): model entries, validity, the `models` index.
- `Entities` (`entities.dfy`): entities, the host store, and one pass as a function `Pass` on the store.
- `Requests` (`requests.dfy`): parameter resolution, request building, the reply, `callService`.
- `Prompt` (`prompt.dfy`): the prompt action.
- `Backoff` (`backoff.dfy`): the retry delay.
- `Controller` (`controller.dfy`): the class `OpenAIController`. Its methods update the entity store, the `models` map, the stopping flag, the failure counter and the status with loops, and each is proved equal to the function that specifies it.

The host entities are values of the datatype `Entity` in the map field `entities`, keyed by entity id. In an entity:

- `deferred` is the depth of open `deferNotifies(true)` scopes;
- `refreshes` counts the calls to `refreshCapabilities`;
- `hash` is the stored `_hash`.

Three inputs become parameters:

- the version hash computed from `Capabilities.getSysInfo()` and the controller version becomes the constant `hash` of the controller;
- the network call `fetch` becomes a function `send` from requests to responses;
- the host's `getAttribute` becomes the function `Values.Get`: a key that was never written reads as `undefined`;
- the host's `online()` and `offline()` become assignments to the `status` field, and `startDelay(ms)` is recorded as an assignment to `nextDelay`.

Where the source and its description differ, the model follows the source:

- `failures` is only set to 0 by the constructor. Nothing resets it on a successful pass or call, so once three errors have occurred, every later error takes the controller offline again.
- The only statuses set are online (after a pass) and offline (from the third failure on). There is no intermediate degraded state.
- `callService` reads the entity's model from the attribute `x_openaimodel` (no dot), but the pass writes `x_openai.model`. So any request for an entity without `x_openaimodel` asks for `gpt-4` (`Requests.ModelFallsBack`), and no pass ever writes that attribute (`Entities.PassKeepsLegacyModel`). For an entity that a pass created for an entry whose service is "OpenAI", the whole chain is proved end to end: the request goes to the OpenAI endpoint and asks for `gpt-4`, whatever the entry's `model` says (`Prompt.FreshOpenAIEntityPrompt`). The same fallback applies to Azure entities, but that case is not proved end to end.

## Model

| member | source | states |
|---|---|---|
| `Values.FalsyNeverOverrides` | OpenAIController.js:129-134 | a falsy left operand of the `or` operator yields the right operand, as an absent one would |
| `Values.UnchangedReflexiveSymmetric` | OpenAIController.js:277 | the change test never reports a value as changed against itself, and is symmetric |
| `Values.UnchangedDefinite` | OpenAIController.js:277 | a stored value that the change test calls unchanged against a non-nullish value is that value |
| `Values.Lower` | OpenAIController.js:99 | lower-casing keeps the length, copies non-letters, maps each upper-case letter to its lower-case one and leaves no upper-case letter |
| `Values.LowerIdempotent` | OpenAIController.js:99 | lower-casing twice is lower-casing once |
| `Values.LowerNeverIgnored` | OpenAIController.js:99 | a lower-cased service can never be the sentinel, so the service attribute is always diffed |
| `Values.LowerOpenAI` | OpenAIController.js:99 | "OpenAI" and "Azure" are stored as "openai" and "azure", the two names the service switch accepts |
| `Values.Member` | OpenAIController.js:182 | a property read throws exactly on `null` and `undefined` and yields the field of an object |
| `Values.First` | OpenAIController.js:182 | an element read throws exactly on `null` and `undefined` and yields the first element of a non-empty array |
| `Keys.ReplaceNsIdentity` | OpenAIController.js:273 | a key without the placeholder is stored as it is |
| `Keys.ReplaceNsComplete` | OpenAIController.js:273 | no rewritten key or primary-attribute name contains the placeholder, whatever the input |
| `Keys.LeadingPlaceholder` | OpenAIController.js:273 | a leading placeholder becomes the namespace and the rest of the key is rewritten on its own |
| `Keys.NamespacedKey` | OpenAIController.js:273 | a key made of the placeholder and an underscore-free rest becomes the namespace followed by that rest |
| `Keys.ModelKey` | OpenAIController.js:98 | `_ns_.model` is stored as `x_openai.model` |
| `Keys.ServiceKey` | OpenAIController.js:99 | `_ns_.service` is stored as `x_openai.service` |
| `Keys.LegacyModelAttrDiffers` | OpenAIController.js:127 | the attribute the request builder reads the model from is neither of the attributes the pass writes |
| `Keys.SystemStateKey` | OpenAIController.js:80-83 | the system entity's key `sys_system.state` is stored unchanged |
| `Attributes.ApplyFrame` | OpenAIController.js:267-284 | an attribute the object does not name keeps its presence and its value |
| `Attributes.WrittenWithinTargets` | OpenAIController.js:267-284 | `setAttribute` is only called for keys the object names |
| `Attributes.ApplyEffect` | OpenAIController.js:267-284 | afterwards each non-sentinel key holds its new value, up to the equality of `null` and `undefined`; a sentinel key keeps its old value |
| `Attributes.WrittenExactly` | OpenAIController.js:271-282 | `setAttribute` is called for a key if and only if its new value is not the sentinel and differs from the stored value |
| `Attributes.NothingToWrite` | OpenAIController.js:276-282 | an object none of whose values differ leaves the attributes as they are and writes nothing |
| `Attributes.ApplyIdempotent` | OpenAIController.js:267-284 | applying the same attribute object twice gives the same attributes and writes nothing the second time |
| `Config.IndexByIdKeys` | OpenAIController.js:88-91 | `models` has a key for every entry, invalid ones included, and for no other key |
| `Config.IndexByIdLastWins` | OpenAIController.js:88-91 | `models[id]` is the last entry with that id |
| `Config.ValidIdsMembers` | OpenAIController.js:95 | an id is mapped if and only if some entry with that id has `id`, `model` and `service` defined |
| `Config.LastValid` | OpenAIController.js:94-100 | the entry whose attributes an entity ends with is valid, has that id and is in the list |
| `Entities.Revived` | OpenAIController.js:231-258 | `mapDevice` revives the entity, unions its capabilities, calls `refreshCapabilities` exactly when the stored hash differs and then stores the hash, diffs the attributes, rewrites the primary attribute, keeps the name, and closes every notification scope it opens |
| `Entities.EntryUpdatesDistinct` | OpenAIController.js:96-100 | the two keys of a model entity rewrite to different attributes |
| `Entities.MapEntriesShape` | OpenAIController.js:94-104 | mapping the entries adds exactly the valid ids, each alive and stamped, and leaves every other entity as it was |
| `Entities.InvalidEntriesIgnored` | OpenAIController.js:95-103 | the entries missing `id`, `model` or `service` create and change no entity |
| `Entities.MapEntriesStep` | OpenAIController.js:94-104 | one more entry maps a valid entry and changes nothing for an invalid one |
| `Entities.MapEntriesSnoc` | OpenAIController.js:94-104 | mapping a list with a valid entry appended is mapping the list, then that entry |
| `Entities.MapEntriesService` | OpenAIController.js:99 | a valid id's entity holds the lower-cased service of the last valid entry with that id |
| `Entities.MapEntriesModel` | OpenAIController.js:94-100 | a valid id's entity holds the `model` of the last valid entry with that id under `x_openai.model`, up to `null` against `undefined`, unless that model is the sentinel |
| `Entities.MapEntriesKeepLegacyModel` | OpenAIController.js:96-100 | mapping the entries never writes `x_openaimodel`; an entity they create has none |
| `Entities.EntryTargets` | OpenAIController.js:96-100 | a model entity's attribute object does not name `x_openaimodel` |
| `Entities.PassShape` | OpenAIController.js:73-114 | after a pass the store holds exactly the system entity and the valid ids, all alive and stamped with the current hash, and every other known entity is gone |
| `Entities.SystemShape` | OpenAIController.js:77-83 | after marking every entity dead and mapping the system entity, the store has one more key at most and only the system entity is alive |
| `Entities.PassService` | OpenAIController.js:94-100 | after a pass a valid id's entity holds the lower-cased service of its last valid entry |
| `Entities.PassModel` | OpenAIController.js:94-100 | after a pass a valid id's entity holds its last valid entry's `model` under `x_openai.model`, up to `null` against `undefined`, unless that model is the sentinel |
| `Entities.PassKeepsLegacyModel` | OpenAIController.js:80-100 | a pass never writes `x_openaimodel`: every entity it keeps holds its old value there, and an entity the pass created has none |
| `Entities.PassWithKnownHash` | OpenAIController.js:240-245 | a pass over entities that already carry the current hash calls `refreshCapabilities` on none of them |
| `Entities.PassRefreshesOnce` | OpenAIController.js:240-245 | a second pass with the same hash refreshes no capabilities |
| `Entities.MappedKeepsRefreshes` | OpenAIController.js:240-245 | `mapDevice` on a stamped store refreshes nothing and leaves it stamped |
| `Entities.EntriesKeepRefreshes` | OpenAIController.js:240-245 | mapping the entries onto a stamped store refreshes nothing and leaves it stamped |
| `Requests.OrChain` | OpenAIController.js:129-134 | a chain of `or` operators yields its first truthy operand, or the last one |
| `Requests.Resolve` | OpenAIController.js:129-134 | a parameter is the first truthy value of call-time, entry and default; the missing entry is touched, and throws, only when the call-time value is falsy |
| `Requests.FalsyParamIgnored` | OpenAIController.js:129-134 | a falsy call-time value such as `0` never overrides the entry or the default |
| `Requests.BuildRequest` | OpenAIController.js:126-164 | openai: the fixed URL, `Bearer` auth, `max_completion_tokens` set to the resolved `max_tokens` and `max_tokens` absent; azure: the entry's endpoint verbatim, `api-key` auth, `max_tokens` kept; any other service is rejected with "Model is not supported"; the message is the prompt text and the model falls back to `gpt-4` |
| `Requests.ModelFallsBack` | OpenAIController.js:127 | an entity without `x_openaimodel` asks for `gpt-4` |
| `Requests.Extract` | OpenAIController.js:182 | a reply shaped `{choices: [{message: {content}}]}` yields that content; a `null` or `undefined` reply, a reply without `choices`, an empty `choices` list or a first choice without `message` is a malformed reply; a message without `content` yields `undefined`; any failure is a malformed reply |
| `Requests.HandleResponse` | OpenAIController.js:174-182 | a non-ok response is rejected with its url, status and status text; an ok one is exactly the extraction of its body, malformed-reply errors included |
| `Requests.CallService` | OpenAIController.js:121-183 | with no `models` map nothing is sent; a request is sent exactly when one can be built, it is that request, and its reply is handled; an unsupported service never reaches the network |
| `Prompt.ValidatePrompt` | OpenAIController.js:191-202 | missing text, text shorter than 3, text longer than 6000 and accepted text, each as an if-and-only-if, in that order |
| `Prompt.PromptBounds` | OpenAIController.js:195-202 | lengths 2 and 6001 are refused; lengths 3 and 6000 pass |
| `Prompt.LengthlessTextAccepted` | OpenAIController.js:195-202 | a `null` text, or one without a length, passes both length checks |
| `Prompt.RunPrompt` | OpenAIController.js:190-204 | a refused prompt returns without calling the service; an accepted one is the service call |
| `Prompt.OpenAIPromptSent` | OpenAIController.js:121-164 | an accepted prompt on an entity with a configuration entry and the stored service "openai" is sent to the OpenAI endpoint, and asks for `gpt-4` when `x_openaimodel` is missing |
| `Prompt.FreshOpenAIEntityPrompt` | OpenAIController.js:121-164 | a prompt on an entity a pass created for an entry with service "OpenAI" in any letter case is sent to the OpenAI endpoint and asks for `gpt-4` |
| `Backoff.Base` | OpenAIController.js:295 | the base interval is the JavaScript or-operator applied to `error_interval` and 5000, under the same model of that operator (`Values.Or`) that resolves the request parameters: `error_interval`, or 5000 when it is absent or zero |
| `Backoff.Delay` | OpenAIController.js:295 | the delay never exceeds 120000, is positive for a positive base, equals the capped base up to 13 failures, and grows with the failures beyond 12 |
| `Backoff.DelayMonotone` | OpenAIController.js:295 | with a non-negative base the delay never decreases as failures grow |
| `Backoff.DefaultSchedule` | OpenAIController.js:295 | with the default base the delay is 65000 at 25 failures and the cap from 36 on |
| `Controller.OpenAIController.constructor` | OpenAIController.js:30-36 | a new controller has no failures, is not stopping and has no `models` map yet |
| `Controller.OpenAIController.UpdateEntityAttributes` | OpenAIController.js:262-288 | a missing entity or object changes nothing; otherwise the entity is revived, its attributes become the diffed ones, the keys written are the specified ones in order, and the notification scope is closed |
| `Controller.OpenAIController.MapDevice` | OpenAIController.js:216-260 | the store becomes the specified upsert of the entity |
| `Controller.OpenAIController.MarkEntitiesDead` | OpenAIController.js:77 | every entity is marked dead and nothing else changes |
| `Controller.OpenAIController.BuildIndex` | OpenAIController.js:88-91 | the map built is the specified index, with a key for every entry and no other |
| `Controller.OpenAIController.MapModels` | OpenAIController.js:94-104 | the store becomes the specified mapping of the entries |
| `Controller.OpenAIController.StartClient` | OpenAIController.js:73-114 | a stopping controller changes nothing; otherwise the store becomes one pass of the old store, `models` indexes the list (or is kept when there is none) and the status is online |
| `Controller.OpenAIController.OnError` | OpenAIController.js:290-304 | `failures` goes up by one, the delay is the capped backoff of the new count, and the status is offline from 3 failures on |
| `Controller.OpenAIController.PerformOnEntity` | OpenAIController.js:186-213 | a prompt changes no state and yields the prompt result; a restart clears the stopping flag and runs a full pass; any other action is delegated and changes nothing |

## Left out

- `fetch`, `response.json()` and the Promise plumbing: the network is the parameter `send`, and a reply is an input value.
- Logging, `console.log` and `sendNotice`: output only.
- `start`, `stop`, `run`, `loadBaseImplementationData` and the unused `delay` helper: lifecycle and timers. `stop` only sets the stopping flag that `StartClient` tests.
- The host's `purgeDevices`, `purgeDeadEntities`, `findEntity`, `getEntity`, `online`, `offline`, `startDelay` and `super.performOnEntity` are not visible. Each becomes a stated effect on the store or a status field; `purgeDeadEntities` is the function `PurgeDead`.
- `util.hash` and `Capabilities.getSysInfo`: the version hash is the opaque constant `hash`.
- Controller.OpenAIController.MapDevice: a host exception inside `mapDevice` (the `catch`/`finally` at OpenAIController.js:255-259) is not modelled, so the matched `deferNotifies(false)` on the error path is not shown.
- `setType(className)` on a new entity: the entity type is not part of the model.
- `models` is one variable shared by every controller instance in the process (OpenAIController.js:27); here it is a field of one controller.
- Host entities are objects with identity; here they are values keyed by id, so aliasing between entities is not modelled.
- Values.Unchanged: JavaScript's loose `!=` is modelled only for `null` against `undefined`. Other coercions (`1 != "1"`) and `JSON.stringify` details, such as key order or dropped `undefined` fields, are left out. The sentinel test at OpenAIController.js:271 is the loose `!=`, so the source also skips a value that coerces to the string `@@IGNORED@@`, such as the array `["@@IGNORED@@"]`. The model's test (`Values.Ignored`) is strict equality with the string, so the model writes such a value.
- Values.Lower: only ASCII letters are lower-cased; `toLowerCase` on other Unicode letters is not modelled.
- Prompt.Length: JavaScript string lengths count UTF-16 code units; here a length is a count of characters. An object with its own `length` property is treated as having no length.
- A `service` of `null`, or of any non-string such as a number, passes the validity test at OpenAIController.js:95 and then throws at `toLowerCase` (line 99), which ends the pass. The model's entries carry an optional string, so that crash is not represented.
- An entry `id` of `null` or a number passes the validity test and becomes the property key `"null"` or `"1"` at OpenAIController.js:89. The model's ids are optional strings, so that conversion is not represented.
- A rejected `fetch` or `response.json()` (network failure, a body that is not JSON) cannot occur in the model: `send` always returns a response with a decoded body.
- Backoff.Base: a non-numeric `error_interval` and NaN arithmetic are not modelled; the interval is an integer.
- Temperature and the other generation parameters are only selected, never computed; they are opaque values and floating point is not modelled.
