# Verified model of the calm-dsl client

The client of this repository uploads blueprints, runbooks, endpoints and providers, lists entities, and
edits the access control policies (ACPs) of projects. This project models the parts whose correctness is
least visible in any one function, and proves what they are for.

* **Secrets.** Before an upload the client walks a JSON tree, takes secret values out, and records each
  under a path or a name. After the server answers, it puts them back. `JsonTree` has trees, paths and
  writes; `SecretSites`, `SecretRoundTrip` and `SecretLaw` prove the strip-and-patch law for any sites;
  `SecretWalk` and `SecretEntities` say which sites a payload has, `SecretPlaces` that they fit together;
  `SecretPayload` covers credentials and authentication, which go by name; `SecretStripper` (with
  `StripPasses`) and `SecretPatcher` are the client's loops, changing one tree in place. `SecretInventory`
  writes out, place by place and apart from the walk, which secrets a payload has, and proves that the walk stops
  at just these; `SecretOutcome` says what becomes of each of them, `SecretLosses` which payloads lose a secret,
  and `TidyPayloads` that payloads whose members have the types their names promise raise no error, if basic
  authentication stands only where the client reads it right.
* **Uploads.** `BlueprintUpload`, `ProviderUpload` (with `UuidStrip`) and `RunbookUpload` compose the passes,
  with a server that echoes the spec. Each has an outcome function, which is `None` where the client raises an
  error or gives up, and a law that says for every payload when it is not, and when what is sent is what was meant.
  `FirstUpload` is about what is sent before that, to create the entity: no secret that was not decompiled is in it.
* **Patch configs.** `PatchConfigs` merges a user's task graph into the system's, over `Graph`. `ConfigMerge` is the
  same merge as the client runs it, on JSON and with its errors; seen as tasks, it is the one of `PatchConfigs`.
  `MergeResult` says member by member what each merged task and edge holds.
  `BlueprintMerge` carries both to the payload that is sent.
* **Power actions.** `PowerActions` is the join of three relations through string keys.
* **Listing.** `Pagers` has the two pagers, `Indexes` the maps built from what they return.
* **ACPs.** `Acps` is a state machine of create, update and delete commands on one project.
* **Singletons.** `Singleton` is the locking protocol of singleton classes, for all interleavings.

A *site* is a place the strip stops at. The code files two kinds of secrets at a path other than the one
it took them from: passwords of runbook tasks with basic authentication (calm/dsl/api/util.py:431) and
passwords of an `authentication` object (calm/dsl/api/util.py:487-488). The model keeps both as they are, so
the round-trip laws are stated as if-and-only-if, and `SecretLosses` has inputs that fail. Where Python would raise
an error on what the walk reads, the site is `Missing`; a list of sites without one is what a strip that ends
without an error has found. `Walks` says that the cursor of the patch raises no error on its way to a path: it may
leave an object that lacks the next key, but not step into null, text or past the end of a list.

Facts about the code that the proofs settle and its documentation does not mention:

* The strip looks for the password of an HTTP task of a runbook directly below `authentication`, while the task
  builder writes it below `basic_auth`: an upload of such a runbook ends with a `KeyError`
  (`SecretLosses.BuilderTaskRaises`).
* A kept password of an object whose `basic_auth`, or the password in it, is null makes the patch fail, though the
  strip took nothing there (`SecretLosses.KeptBasicRaises`).
* A provider's secret that holds a `uuid` key gets it back after all uuids were stripped (`ProviderUpload.UuidReturns`).
* Secrets held by name share one map, so two credentials of one name, or a credential named like the
  username of a basic authentication, overwrite each other (`SecretPayload.ReturnedExactly`).
* The walk over an entity's actions ends at the first action without a runbook, so secrets of later actions are
  uploaded as they are (`SecretOutcome.LaterActionsNotStripped`).
* A patch config whose runbook the server has not reported makes the upload fail where runbooks are attached,
  although the merge before it tolerates it (`BlueprintUpload.BlueprintLaw`).
* A task key made with `_` can stand for two tasks, and a runbook then gets the wrong machine
  (`PowerActions.KeysCollide`); or none, if the later task calls a runbook no substrate owns
  (`PowerActions.TargetsAreTheJoin`).
* A system DAG without children makes the merged patch config loop (`PatchConfigs.NoSystemChildMakesLoop`).
* `list_all` with a `length` below `api_limit` can miss entities (`Pagers.CompleteExactly`).
* A constructor of a singleton class that calls a singleton class waits for itself
  (`Singleton.NestedCallHangs`).

## Model

| member | source | states |
|---|---|---|
| SecretStripper.Stripper.StripEntity | calm/dsl/api/util.py:202-269 | The loop over a variable, header or argument list ends without an error exactly when all it reads is there; the tree, `secret_variables` and `not_stripped_secrets` after it are then those of the list's sites taken in order, each read from the payload as it was at the start |
| SecretStripper.Stripper.StripSecretVariable | calm/dsl/api/util.py:218-238 | One SECRET variable: popped, marked and recorded under its file path, or noted as kept when it has a value |
| SecretStripper.Stripper.StripOptionPassword | calm/dsl/api/util.py:239-269 | The password of a dynamic variable's HTTP task is always taken, whatever was decompiled |
| SecretStripper.Stripper.StripTaskPassword | calm/dsl/api/util.py:319-375 | The password of an action's HTTP task: popped and the node replaced, or noted as kept |
| SecretStripper.Stripper.StripActionTask | calm/dsl/api/util.py:306-395 | One task of an action: only HTTP tasks, password first, then headers |
| SecretStripper.Stripper.StripActions | calm/dsl/api/util.py:272-395 | The walk over actions with its early return at the first action without a runbook |
| SecretStripper.Stripper.StripAuthentication | calm/dsl/api/util.py:462-499 | The password is taken from `authentication.password` and filed below `authentication.basic_auth`; a basic authentication without a password object there is an error |
| SecretStripper.Stripper.StripRunbook | calm/dsl/api/util.py:398-459 | The walk over a runbook's tasks, with the extra `runbook` step in the file path of tasks that use basic authentication; it fails exactly at a task whose authentication lacks the keys it reads |
| SecretStripper.Stripper.StripAll | calm/dsl/api/util.py:502-530 | The four strips of one object, run on a tree that the earlier ones changed, find the sites of the object as it was, and fail exactly when one of these is missing |
| SecretStripper.Stripper.StripCredentials | calm/dsl/api/util.py:533-549 | Credentials: the new tree and `secret_map`, where the last stripped secret of a name wins, or an error when a name, secret or value is not there |
| SecretStripper.Stripper.StripSecrets | calm/dsl/api/util.py:49-109 | The whole strip of a blueprint, runbook or endpoint: exactly when it raises no error, and then the final tree, `secret_map` and both lists |
| SecretStripper.Stripper.StripProviderSecrets | calm/dsl/api/util.py:112-199 | The whole strip of a provider: six passes whose outcome is one list of sites of the original payload, with the exact condition of an error |
| SecretPatcher.Patcher.Resolves | calm/dsl/api/util.py:662-684 | The cursor walk: it raises no error exactly when the path can be walked, that is leaves at most an object without the next key and ends at an object, and then reaches its end exactly when the path leads to a node |
| SecretPatcher.Patcher.PatchSecrets | calm/dsl/api/util.py:637-684 | Credentials, authentication, kept secrets and stripped secrets, in that order; an error exactly when a credential or the authentication cannot be read, or a path cannot be walked in the tree as it is by then |
| SecretPlaces.AllSitesWellPlaced | calm/dsl/api/util.py:502-530 | For every object of every payload the strip passes: recorded paths are pairwise apart, misfiled ones included; each site holds what the tree holds; and a secret filed elsewhere is filed away from every site |
| SecretEntities.PayloadWellPlaced | calm/dsl/api/util.py:49-109 | The same over all lists and objects of one call, and clear of everything handled by name |
| SecretEntities.ProviderWellPlaced | calm/dsl/api/util.py:131-199 | The same over a provider's resource types, schemas, test account and actions |
| SecretSites.PatchOrderIrrelevant | calm/dsl/api/util.py:671-682 | Patching secrets whose paths are apart gives one tree, or one error, for every order of them, duplicates included |
| SecretSites.RecordsWalkExactly | calm/dsl/api/util.py:671-684 | With paths apart, the patch raises an error if and only if one of its paths cannot be walked in the tree it begins with |
| JsonTree.FalsyExactly | calm/dsl/api/util.py:286-290 | The values Python takes for false, at which the walk over actions ends |
| SecretInventory.PayloadSitesAre | calm/dsl/api/util.py:202-499 | For every payload the strip passes, what it stops at are exactly the secrets of the payload, written out by member names, paths and contexts: SECRET variables, dynamic variables' passwords, passwords and headers of HTTP tasks of walked actions, arguments and headers of tasks, and `authentication` passwords |
| SecretInventory.BlueprintSitesAre | calm/dsl/api/blueprint.py:190-200 | The same over the five lists of a blueprint |
| SecretInventory.ProviderSitesAre | calm/dsl/api/util.py:131-199 | The same for a provider: resource types with their schemas, its variables, auth schemas, endpoint schema, test account and actions |
| SecretOutcome.PatchInAnyOrder | calm/dsl/api/util.py:671-682 | For any sites filed apart, the recorded paths are pairwise distinct, those of kept secrets included, and any reordering of the records patches any tree alike, errors included |
| SecretOutcome.PayloadInAnyOrder | calm/dsl/api/util.py:671-682 | The same for the records of every payload that is stripped without an error, misfiled secrets included |
| SecretOutcome.ProviderInAnyOrder | calm/dsl/api/util.py:671-682 | The same for every provider |
| SecretOutcome.RecordsResolve | calm/dsl/api/util.py:224-230 | The record of a stripped secret that is filed where it was found carries its `value`, and its path leads to an object in the payload and in the stripped payload the patch walks |
| SecretOutcome.PayloadRecordsResolve | calm/dsl/api/util.py:224-230 | The same for every such record of every payload that is stripped without an error |
| SecretOutcome.ProviderRecordsResolve | calm/dsl/api/util.py:224-230 | The same for every provider |
| SecretOutcome.SecretsAccounted | calm/dsl/api/util.py:202-499 | Every secret of every payload that is stripped without an error: one that was decompiled with this value stays and is listed as kept when it has a value; any other is gone from the tree, has the placeholder of its kind, is recorded exactly once with its value and name, and is not kept |
| SecretOutcome.TaskPasswordAccounted | calm/dsl/api/util.py:319-375 | So the password of each HTTP task with `auth_type` basic of each walked action, decided by its context, user name and value |
| SecretOutcome.ProviderAccounted | calm/dsl/api/util.py:112-199 | The same for every secret of every provider |
| SecretOutcome.OnlySecretsListed | calm/dsl/api/util.py:217-238 | Nothing is recorded but secrets that were not decompiled, nothing kept but secrets that were |
| SecretOutcome.NothingElseStripped | calm/dsl/api/util.py:49-109 | A node at which no such secret is written is the same after the strip |
| SecretOutcome.SecretsMarked | calm/dsl/api/util.py:637-684 | The intended result, literally: `attrs` of each secret says whether the server is to take its value, and every other node is as it was |
| SecretOutcome.CredentialAccounted | calm/dsl/api/util.py:533-549 | Each credential: its secret is replaced by the placeholder unless decompiled under its name, and `secret_map` then has the secret of the last such credential of the name |
| SecretOutcome.AuthenticationAccounted | calm/dsl/api/util.py:70-81 | The password of an endpoint's basic authentication is replaced and kept under its user name, or stays when decompiled |
| SecretOutcome.Partition | calm/dsl/api/util.py:217-238 | A secret with a value is recorded in exactly one of the two lists, and only one not stripped keeps its value |
| SecretOutcome.EntityVariablePartition | calm/dsl/api/util.py:211-238 | The same for each SECRET variable of an entity over the strip of the entity with all its actions, decided by context, name and value |
| SecretOutcome.ActionVariablePartition | calm/dsl/api/util.py:284-298 | The same for each SECRET variable of the runbook of a walked action, under that action's context |
| SecretOutcome.HeaderPartition | calm/dsl/api/util.py:377-395 | The same for each SECRET header of an HTTP task of a walked action, under the task's context |
| SecretOutcome.LaterActionsNotStripped | calm/dsl/api/util.py:286-290 | Actions from the first one without a runbook on are neither stripped nor changed by the round trip |
| SecretRoundTrip.RoundTripExactly | calm/dsl/api/util.py:637-684 | For any list of sites that do not disturb each other, strip, echo and patch give back the tree with only `attrs` of secrets set, each at the secret's own node, if and only if each stripped secret is filed where it was found, is the value the tree had, and its replaced node held nothing else, and each kept one is filed where it is or was marked already |
| SecretRoundTrip.RestoredWhenRestorable | calm/dsl/api/util.py:671-682 | The direction to the right: everything is restored |
| SecretRoundTrip.LostWhenNotRestorable | calm/dsl/api/util.py:485-492 | The direction to the left: one secret that is not restorable spoils the result |
| SecretRoundTrip.MismarkedWhenMisfit | calm/dsl/api/util.py:494-497 | So does one kept secret that is filed elsewhere and was not marked already |
| SecretRoundTrip.PatchedValue | calm/dsl/api/util.py:671-682 | A stripped secret filed at its own node has its `value` again and `is_secret_modified` set, whatever became of the others |
| SecretLaw.Untouched | calm/dsl/api/util.py:49-109 | A node that no site is at or filed at is the same after the strip and after the patch |
| SecretPayload.ReturnedExactly | calm/dsl/api/util.py:533-549 | All secrets held by name come back if and only if no two holders of one name disagree and none is skipped for an empty username |
| SecretLaw.PayloadRoundTripExactly | calm/dsl/api/util.py:637-684 | The if-and-only-if for secrets by name and by path together, without errors |
| SecretLaw.OutcomeExactly | calm/dsl/api/util.py:637-684 | The same with errors: the passes end without one exactly when names, credentials and all places of secrets are there and all file paths can be walked, all told from the tree as it was before anything was taken out |
| SecretLaw.WalksExactly | calm/dsl/api/util.py:662-684 | Whether the walks of a patch raise an error on a stripped payload can be told from the payload itself, path by path |
| SecretEntities.PayloadLaw | calm/dsl/api/util.py:49-109 | For every payload, lists and objects: the client passes without an error exactly when all it reads is there and all it patches can be walked to, and `strip_secrets`, echo, `patch_secrets` is the identity up to `attrs` of secrets if and only if moreover no names clash and every secret found by path fits |
| SecretLosses.BasicTaskLost | calm/dsl/api/util.py:429-437 | A runbook task with basic authentication never survives the round trip when nothing was decompiled: the client raises an error unless `authentication.password` is an object, and else loses the password |
| SecretLosses.BuilderTaskRaises | calm/dsl/builtins/models/task.py:1847-1856 | The task as its builder writes it for a credential, with the password below `basic_auth`: for every user name and password the strip raises an error (calm/dsl/api/util.py:487-488) |
| SecretLosses.BasicRunbookLost | calm/dsl/api/util.py:487-488 | A concrete runbook of one such task, for every password |
| SecretLosses.KeptBasicRaises | calm/dsl/api/util.py:494-497 | A kept password of an object whose `basic_auth`, or the password in it, is there but no object: the patch raises an error (calm/dsl/api/util.py:662-669) |
| SecretLosses.SharedNameLost | calm/dsl/api/util.py:539-544 | Two credentials of one name with different secrets: one of them is lost |
| SecretLosses.UniqueNamesRestored | calm/dsl/api/util.py:80-81 | When nothing is missing, all file paths can be walked, names are unique, also between username and credentials, and every secret found by path fits, the round trip loses nothing |
| TidyPayloads.TidyLaw | calm/dsl/api/util.py:49-109 | For every payload whose members have the types their names promise and in which no object or task of an object uses basic authentication: strip and patch raise no error, and the payload comes back, with only `attrs` of secrets set, if and only if no two secrets held by name clash |
| UuidStrip.UuidStripper.Strip | calm/dsl/api/util.py:1101-1117 | The recursion in place replaces the part of the payload it is given by its uuid-free form and nothing else |
| UuidStrip.NoUuidLeft | calm/dsl/api/util.py:1104-1108 | No path of the result passes a `uuid` key, at any depth |
| UuidStrip.StripTwice | calm/dsl/api/util.py:1101-1117 | Idempotence |
| UuidStrip.LookupCommutes | calm/dsl/api/util.py:1113-1117 | Looking up a path without a `uuid` step commutes with the strip |
| UuidStrip.WriteCommutes | calm/dsl/api/util.py:1113-1117 | So does writing at such a path |
| UuidStrip.StripExactly | calm/dsl/api/util.py:1101-1117 | Node by node: a path without a `uuid` step leads somewhere after the strip exactly when it did before; there a string, number, boolean or null is the same, a list has its length, an object all its keys but `uuid` |
| UuidStrip.StripInPlace | calm/dsl/api/util.py:1101-1117 | So for the part of a payload that is stripped in place, while what lies beside it stays |
| ProviderUpload.ProviderUnmarked | calm/dsl/api/provider.py:232-243 | No path recorded for a provider passes a `uuid` key, so all resolve after the uuids are gone |
| ProviderUpload.ProviderLaw | calm/dsl/api/provider.py:232-272 | For every provider: a payload is sent back exactly when all that is read is there and all that is patched can be walked to, and it is the uuid-free payload with only `attrs` of secrets set if and only if moreover each secret put back by name is the one its place holds without uuids, and each secret found by path fits there |
| ProviderUpload.ProviderElsewhere | calm/dsl/api/provider.py:232-272 | In what is sent, every node away from secrets and credentials is there exactly when the provider had it, with the same value, length or keys, uuids aside |
| ProviderUpload.ProviderSiteFits | calm/dsl/api/provider.py:232-272 | A stripped secret found by path fits the uuid-free payload if and only if it holds no uuid itself, is filed where it was found, and its replaced node held nothing else but a uuid |
| ProviderUpload.UnclashingWhenPlain | calm/dsl/api/provider.py:232-272 | When no secret held by name has a uuid in it, the condition on names is that no credentials clash |
| ProviderUpload.UuidReturns | calm/dsl/api/provider.py:232-272 | A concrete provider whose credential secret holds a uuid: what is sent is not the uuid-free payload |
| ProviderUpload.ProviderCredentialRestored | calm/dsl/api/provider.py:232-272 | With no assumption on names or values, a credential of a stripped name has the secret of the last stripped one of that name, its uuids included |
| ProviderUpload.UploadProvider | calm/dsl/api/provider.py:232-272 | The passes run in place, in the client's order, compute the payload the provider is imported from and the one sent back, or stop where one of them raises an error |
| FirstUpload.ProviderHides | calm/dsl/api/provider.py:232-250 | In the payload a provider is imported from, each secret that was not decompiled is replaced |
| FirstUpload.ProviderHidesCredential | calm/dsl/api/provider.py:232-250 | So is each credential's |
| FirstUpload.ProviderImportedElsewhere | calm/dsl/api/provider.py:232-250 | No path of it passes a `uuid` key, and away from secrets it holds all else |
| BlueprintUpload.ConfigPayload.StripPatchConfigTasks | calm/dsl/api/util.py:934-947 | Every patch config loses its runbook, nothing else changes, and the tasks are kept by profile and config name; an error exactly when a profile, config or runbook cannot be read so |
| BlueprintUpload.ConfigPayload.AttachRunbooks | calm/dsl/api/util.py:1084-1098 | Every patch config gets the runbook at its own position and nothing else changes; an error exactly when a position or its runbook is not there |
| BlueprintUpload.BlueprintLaw | calm/dsl/api/blueprint.py:197-248 | End to end, for every blueprint and every report of the server: a payload is sent exactly when nothing that is read is missing, merge and attachment included, and all that is patched can be walked to, and it is the original one with each patch config holding its merged runbook and only `attrs` of secrets set, if and only if moreover no names clash and every secret found by path fits |
| BlueprintUpload.UploadBlueprint | calm/dsl/api/blueprint.py:289-355 | The passes run in place, in the client's order, merge included, compute the payload the blueprint is created with and the one sent back, or stop where one of them does |
| FirstUpload.BlueprintHides | calm/dsl/api/blueprint.py:188-217 | In the payload a blueprint is created with, each secret of the five lists that was not decompiled is replaced, and each other has its value |
| FirstUpload.BlueprintHidesCredential | calm/dsl/api/blueprint.py:188-217 | So it is with each credential's |
| FirstUpload.BlueprintWithoutRunbooks | calm/dsl/api/blueprint.py:201-202 | No patch config in it has a runbook |
| FirstUpload.BlueprintElsewhere | calm/dsl/api/blueprint.py:188-217 | Every node away from these is as the user wrote it |
| FirstUpload.TasksAreLast | calm/dsl/api/util.py:934-947 | Under a profile and config name are kept the tasks of the last config of the last profile of these names |
| BlueprintUpload.StripLeavesTasks | calm/dsl/api/blueprint.py:197-202 | The tasks handed to the merge are exactly those the user wrote, secrets or not |
| BlueprintUpload.NameServices | calm/dsl/api/blueprint.py:224-229 | Service names to uuids, or an error when a service has no name or uuid |
| BlueprintMerge.ServicesAreLast | calm/dsl/api/blueprint.py:224-229 | A name is known exactly when a service was reported under it, and its entry is the uuid of the last one |
| BlueprintUpload.MergeReported | calm/dsl/api/blueprint.py:224-237 | The merge on what the server reported, its services first |
| ConfigMerge.PointEdges | calm/dsl/api/util.py:1066-1075 | The edge loop on JSON: an error exactly when an end has no name or a name of no task |
| ConfigMerge.NameTasks | calm/dsl/api/util.py:995-1001 | The name to uuid map on JSON, an error exactly when a task lacks either |
| ConfigMerge.MergeDag | calm/dsl/api/util.py:1042-1077 | A user DAG gives the system DAG its edges, in place |
| ConfigMerge.MergeProfiles | calm/dsl/api/util.py:973-1082 | The loops over reported profiles on JSON, ending early at the first error or missing service |
| ConfigMerge.MergedTasksExactly | calm/dsl/api/util.py:1013-1082 | The merge of one runbook ends without an error exactly when the system has a first task, every service is known, every edge end is a task, and the DAG can take children and edges when it has to |
| ConfigMerge.MergedMembers | calm/dsl/api/util.py:1013-1082 | Nothing but what the merge is for changes: in order, system tasks and the user's own tasks keep every member but `state`, `message_list` and the uuid of their target, and the DAG all but its edges and its children, which grow by the user's own tasks |
| MergeResult.OwnTasksMerged | calm/dsl/api/util.py:1013-1082 | Every user task that is no DAG is appended, in order, with the uuid that `service_name_uuid_map` has for its target's name and all other members as written; the DAG's children grow by these tasks; `state` and `message_list` are gone everywhere |
| MergeResult.EdgesMerged | calm/dsl/api/util.py:1042-1077 | The DAG's edges: one from its first child to the task the user's DAG begins with, then the user's edges, each end with the uuid of the last task it names |
| MergeResult.UuidsAreLast | calm/dsl/api/util.py:995-1001 | A task name has, on JSON, the uuid of the last task of the name |
| ConfigMerge.MergedTasksView | calm/dsl/api/util.py:1013-1082 | The JSON merge, seen as tasks, is the merge of `PatchConfigs` |
| ConfigMerge.MergedConfigView | calm/dsl/api/util.py:1004-1082 | So is each merged config, its runbook without what the server added |
| ConfigMerge.FittingIsMergeable | calm/dsl/api/util.py:1013-1082 | When it ends without an error, what the graph results of `PatchConfigs` ask for holds |
| BlueprintMerge.TasksAreViews | calm/dsl/api/util.py:934-947 | The tasks taken out of the JSON payload, by names, are the tasks of its profiles and configs, an empty runbook counting as none |
| BlueprintMerge.RunbookArrives | calm/dsl/api/blueprint.py:237-244 | In every upload that sends a payload, whatever its secrets, each patch config ends with the merged runbook at its own position, and there is one |
| BlueprintMerge.MergedRunbookArrives | calm/dsl/api/blueprint.py:197-248 | From the payload the user wrote to the one sent: with unique names and one order, each patch config ends with the reported runbook, its task list merged with exactly the tasks the user wrote there |
| BlueprintMerge.MergedTasksArrive | calm/dsl/api/blueprint.py:197-248 | Task by task, in the payload sent: the user's own tasks in order, each target with the uuid of the last service the server reported under its name |
| BlueprintMerge.MergedGraphArrives | calm/dsl/api/blueprint.py:197-248 | And seen as tasks it is the merge whose graph is acyclic exactly as `PatchConfigs.MergeAcyclicExactly` says |
| RunbookUpload.StripAllEndpoints | calm/dsl/api/runbook.py:170-182 | The first loop: each endpoint stripped with a map of its own, keyed by its name; an error exactly at an endpoint whose credentials or authentication cannot be read |
| RunbookUpload.PatchAllEndpoints | calm/dsl/api/runbook.py:231-239 | The second loop: each returned endpoint is patched with the map of its name; an error exactly at a name without a map or what cannot be patched |
| RunbookUpload.MapsByName | calm/dsl/api/runbook.py:170-175 | With unique names, each endpoint's map is the one filled from it |
| RunbookUpload.EndpointLaw | calm/dsl/api/runbook.py:173-182 | An endpoint passes without an error exactly when all that is read is there, and comes back as it was, its default credential reference aside, if and only if moreover no names clash in it |
| RunbookUpload.AnyOrderRestores | calm/dsl/api/runbook.py:231-239 | In whatever order the server returns the endpoints, names unique or not, all are restored if and only if the map of its name, the last endpoint's of that name, answers for every secret of each |
| RunbookUpload.AnsweredWhenUnique | calm/dsl/api/runbook.py:170-175 | With unique endpoint names that is so if and only if no names clash within any endpoint |
| RunbookUpload.RunbookLaw | calm/dsl/api/runbook.py:162-242 | The one payload of an upload, main runbook and endpoints in any order: the update is sent exactly when nothing that is read is missing and all that is patched can be walked to, and is the original with only `attrs` of secrets set and default credential references gone, if and only if moreover no names clash in the runbook, every secret found by path fits, and each endpoint's secrets are in the map of its name |
| RunbookUpload.UploadRunbook | calm/dsl/api/runbook.py:156-242 | The passes run in the client's order compute the payload the runbook is created with and the update, or stop where one of them raises an error |
| FirstUpload.RunbookHides | calm/dsl/api/runbook.py:156-190 | In the payload a runbook is created with, each secret of the main runbook is replaced |
| FirstUpload.RunbookHidesCredential | calm/dsl/api/runbook.py:156-190 | So is each credential's |
| FirstUpload.RunbookElsewhere | calm/dsl/api/runbook.py:156-190 | Every node away from these and from the endpoints is as the user wrote it |
| FirstUpload.EndpointsHide | calm/dsl/api/runbook.py:170-182 | Each of its endpoints has the placeholder at every credential and at the password of a basic authentication, no default credential reference, and all other members as written |
| FirstUpload.MapsAreLast | calm/dsl/api/runbook.py:170-175 | The secret map under a name is that of the last endpoint of the name |
| FirstUpload.EndpointsArrive | calm/dsl/api/runbook.py:231-242 | When the update is the intended one, each endpoint in it is the user's, in the server's order, without its default credential reference and with nothing else changed |
| PatchConfigs.MergeConfig | calm/dsl/api/util.py:1004-1082 | The merge of one config: fails exactly when a service is unknown, else gives the merged task list |
| PatchConfigs.PointEdges | calm/dsl/api/util.py:1066-1075 | The edge loop gives both ends of every edge the uuid of the task they name |
| PatchConfigs.NameTasks | calm/dsl/api/util.py:995-1001 | The name to uuid map, the last task of a name winning |
| Graph.OneMoreEdge | calm/dsl/api/util.py:1048-1077 | Adding one edge keeps a graph acyclic if and only if it was acyclic and the edge's end did not reach its beginning |
| Graph.RenameKeepsCycles | calm/dsl/api/util.py:1066-1075 | Renaming nodes one to one keeps and makes no cycles |
| Graph.RenameKeepsReach | calm/dsl/api/util.py:1066-1075 | Renaming keeps which nodes reach which |
| PatchConfigs.MergeAcyclicExactly | calm/dsl/api/util.py:1041-1077 | The merged DAG is acyclic if and only if the user's edges are and the user's first task does not lead back to the system's first child |
| PatchConfigs.MergedDagSound | calm/dsl/api/util.py:1041-1077 | With acyclic user edges and a system first child that is no user task: acyclic, nothing leads into the first child, and it leads to every task the user's first task led to |
| PatchConfigs.NoSystemChildMakesLoop | calm/dsl/api/util.py:1048-1056 | A concrete input: a system DAG without children makes a loop of a user graph without edges |
| PatchConfigs.EdgeEndsAreChildren | calm/dsl/api/util.py:1066-1077 | Every edge end set by the merge carries the uuid of the task it names, and that uuid is a child of the merged DAG |
| PatchConfigs.MergeGrowth | calm/dsl/api/util.py:1013-1039 | Tasks and children grow by exactly the user's own tasks, in order, each target with the uuid of the service of its name; other system tasks only lose `state` and `message_list` |
| PatchConfigs.NamesAreLast | calm/dsl/api/util.py:995-1001 | A task name has the uuid of the last task of the name |
| PatchConfigs.FirstChildIs | calm/dsl/api/util.py:1048-1056 | The new edge starts at the system's first child, or else at the user's first own task before the DAG |
| PatchConfigs.DagPositionIrrelevant | calm/dsl/api/util.py:1030-1077 | The merged runbook does not depend on where in the user's list the DAG stands |
| PatchConfigs.MergeProfiles | calm/dsl/api/util.py:973-1082 | The loops over reported profiles: which of them fail, and each merged config of the others |
| PatchConfigs.AttachByPosition | calm/dsl/api/util.py:1084-1098 | Each spec config keeps all but its runbook, which comes from its own position; an error exactly when a profile, config or runbook is not reported there |
| PatchConfigs.NameAndPositionAgree | calm/dsl/api/util.py:992-1098 | With unique names and one order, the config written at a position ends with the reported runbook extended by exactly the tasks written there, though tasks are found by name and runbooks attached by position |
| PowerActions.Linker.AddPower | calm/dsl/api/util.py:880-885 | Step 1: runbook uuid to substrate, the last of a uuid winning; an error exactly at a power action whose runbook is null |
| PowerActions.Linker.KeyEntities | calm/dsl/api/util.py:735-772 | Step 2: task key to substrate; an error exactly at a task that calls a runbook without a reference |
| PowerActions.Linker.LinkEntities | calm/dsl/api/util.py:775-820 | Step 3: runbook name to substrate; an error exactly at a task that calls a runbook without a reference |
| PowerActions.FindTargets | calm/dsl/api/util.py:823-906 | The three steps over all entity lists, in the order they are visited, and exactly when one of them raises an error |
| PowerActions.CallsAre | calm/dsl/api/util.py:735-820 | A call is visited if and only if an entity of a list has an action, or a patch config, with a runbook in which a CALL_RUNBOOK task has that reference, under the key of entity, action and task name |
| PowerActions.ListsInOrder | calm/dsl/api/util.py:893-904 | Lists are visited one after the other |
| PowerActions.EntitiesInOrder | calm/dsl/api/util.py:735-772 | So are the entities of a list, and of each entity the actions before the patch configs (`OneEntity`), each in order with their tasks (`ActionsInOrder`, `TasksInOrder`) |
| PowerActions.PowerIsLast | calm/dsl/api/util.py:880-885 | A runbook uuid leads to the last substrate that owns it |
| PowerActions.TargetsAreJoined | calm/dsl/api/util.py:898-906 | Every entry is witnessed by an exported call, a blueprint call of the same key and a substrate that owns the called runbook |
| PowerActions.TargetsExactly | calm/dsl/api/util.py:775-820 | Which runbook names have an entry, with no assumption on keys: those of an exported call whose key leads to a machine |
| PowerActions.TargetsAreTheJoin | calm/dsl/api/util.py:823-906 | For all payloads: the entries, names with their machines, are exactly the join over entities, their actions and patch configs, and the tasks of these if and only if no name is joined to two machines and each joined name leads through the last call of some key |
| PowerActions.JoinedHasTarget | calm/dsl/api/util.py:898-906 | A joined exported call has its runbook in the result when the last call of its key is to a runbook that a named substrate owns |
| PowerActions.KeysMakeLead | calm/dsl/api/util.py:735-772 | With one meaning per key and named substrates, each joined name leads |
| PowerActions.KeysAreTriples | calm/dsl/api/util.py:755-757 | For entity and action names without `_`, equal keys mean equal entity, action and task |
| PowerActions.SharedKeyMisleads | calm/dsl/api/util.py:735-820 | For all payloads and any two exported calls of one key whose names have no other key: both runbooks get the machine of the last blueprint call of that key, or neither has an entry |
| PowerActions.KeysCollide | calm/dsl/api/util.py:735-820 | A concrete payload: two different tasks of one key, and the runbook one of them calls is mapped to the machine of the other |
| Pagers.ListAll | calm/dsl/api/resource.py:148-184 | The offset pager: its number of calls is the least k with n <= limit + (k - 1) * length, it returns exactly the first min(n, k * length) entities, and a failing call is the only way to get none |
| Pagers.CompleteExactly | calm/dsl/api/resource.py:166-180 | It is complete for every collection if and only if the page length is at least the limit |
| Pagers.ListPages | calm/dsl/api/iam_v4_resource.py:98-145 | The page pager with the bounds of `list`: exactly the first min(n, T) entities, an exact number of calls, termination also when the last page is full |
| Indexes.BuildNameIndex | calm/dsl/api/iam_v4_resource.py:175-209 | The name index is the one of the entities with both fields among the first `limit` |
| Indexes.BuildUuidIndex | calm/dsl/api/iam_v4_resource.py:211-241 | The uuid index of the same entities, the last name of a uuid winning |
| Indexes.NameIndexHolds | calm/dsl/api/iam_v4_resource.py:188-209 | Under a name are, in listing order, exactly the uuids of the entities of that name with both fields among the first `limit`, or among all when `limit` is missing or not positive |
| Indexes.UuidIndexHolds | calm/dsl/api/iam_v4_resource.py:222-241 | Under a uuid is the name of the last such entity, and there is one exactly when there is such an entity |
| Indexes.NameIndexIs | calm/dsl/api/iam_v4_resource.py:200-207 | The list under a name holds its uuids in listing order |
| Indexes.UuidIndexIs | calm/dsl/api/iam_v4_resource.py:226-241 | With unique uuids, the uuid index holds exactly the listed pairs |
| Indexes.IndexesAgree | calm/dsl/api/iam_v4_resource.py:191-241 | With unique uuids the two indexes are inverse relations |
| Indexes.LengthsAddUp | calm/dsl/api/iam_v4_resource.py:191-209 | The lengths of the lists add up to the number of entities with both fields |
| Indexes.BuildSlotIndex | calm/dsl/api/resource.py:93-125 | The string-or-list index, with its `split` at the second uuid of a name |
| Indexes.BuildResourceUuidIndex | calm/dsl/api/resource.py:127-145 | The uuid index of the same class |
| Indexes.SlotIs | calm/dsl/api/resource.py:108-123 | A name's slot: the uuid itself when listed once, else the first uuid split at whitespace followed by the others |
| Indexes.SplitIsIdentityExactly | calm/dsl/api/resource.py:111-113 | `split` gives back one string if and only if it is a word |
| Indexes.SplitAtSpace | calm/dsl/api/resource.py:111-113 | Around any whitespace character, `split` gives the words of what stands before and after it |
| Indexes.SlotsAgreeExactly | calm/dsl/api/resource.py:104-125 | The slot holds the same uuids as the list index if and only if the name occurs once or its first uuid is a word; it is a string exactly when the name occurs once |
| Indexes.NameUuidMap | calm/dsl/api/iam_v4_resource.py:175-209 | Listing and indexing together: the name map of the whole collection the server holds, or an error exactly when one of the calls fails |
| Indexes.UuidNameMap | calm/dsl/api/iam_v4_resource.py:211-241 | The same for the uuid map |
| Indexes.ResourceNameUuidMap | calm/dsl/api/resource.py:93-125 | The string-or-list map of what the offset pager takes of the collection, or an error exactly when one of the calls fails |
| Indexes.ResourceUuidNameMap | calm/dsl/api/resource.py:127-145 | The same for the uuid map of that class |
| Indexes.KnownExactly | calm/dsl/api/resource.py:127-180 | Of unique uuids, the map knows exactly those listed before the pager stopped |
| Indexes.MapsCompleteExactly | calm/dsl/api/resource.py:93-180 | For every collection the maps are those of all of it, if and only if the page length is at least the limit |
| Acps.GetAcps | calm/dsl/cli/acps.py:28-74 | The listing with its filters, its stop at the first name match, its slice, and the total before slicing |
| Acps.FoundExactly | calm/dsl/cli/acps.py:43-66 | All matches are found, or at most one when a name is asked for; none exactly when nothing matches |
| Acps.ListedExactly | calm/dsl/cli/acps.py:43-72 | The matches in project order, only the first of them when a name is asked for; of these the listing holds those from `offset` on, `limit` of them or as many as there are |
| Acps.CreateAcp | calm/dsl/cli/acps.py:175-411 | All guards of a create, and the payload it sends |
| Acps.CreateSentExactly | calm/dsl/cli/acps.py:175-375 | A create is sent if and only if somebody is named, all named are members of the project and known, and neither the name nor the role is taken |
| Acps.CreateSends | calm/dsl/cli/acps.py:366-411 | Its rows: the old ACPs as they were, and last the new one; the k-th user has the k-th name and the first uuid listed under that name, the k-th group all uuids listed under its |
| Acps.UpdateAcp | calm/dsl/cli/acps.py:622-763 | All guards of an update, those inside its loop included, and the payload it sends |
| Acps.UpdateSentExactly | calm/dsl/cli/acps.py:631-753 | An update is sent if and only if somebody is named, nobody both added and removed, all added are members of the project and known, an ACP has the name, and all removed are members of every ACP of that name |
| Acps.UpdateSends | calm/dsl/cli/acps.py:681-763 | Its rows: an ACP of the name has the references not removed, in order, followed by those of the added, each with its own name and uuids; every other is as it was |
| Acps.DeleteAcp | calm/dsl/cli/acps.py:483-517 | The payload of a delete, or an exit when no ACP has the name |
| Acps.DeleteSendsExactly | calm/dsl/cli/acps.py:501-517 | A delete is sent if and only if an ACP has the name; its rows are all ACPs as they were, those of the name marked to delete and all others as updates |
| Acps.PayloadMarks | calm/dsl/cli/acps.py:405-411 | A create marks exactly one ACP to add and a delete exactly one to delete, the one it names; all others, and all of an update, are updates |
| Acps.UpdateMembers | calm/dsl/cli/acps.py:681-753 | Member names become the old ones minus the removed plus the added in every ACP of the name; other ACPs stay |
| Acps.AddThenRemoveExactly | calm/dsl/cli/acps.py:716-753 | Adding and then removing members gives back the exact reference lists if and only if none of them was a member before |
| Acps.UpdateUndoneExactly | calm/dsl/cli/acps.py:664-763 | The same for a whole project, whatever the directory holds by then: the removing update is always accepted |
| Acps.WithoutSameExactly | calm/dsl/cli/acps.py:716-722 | Removing names is the identity if and only if none was there |
| Acps.RunSound | calm/dsl/cli/acps.py:212-258 | Over every run of creates, updates and deletes: members stay inside the project, at most one ACP per role, names unique |
| Acps.DeleteSound | calm/dsl/cli/acps.py:505-511 | A delete leaves exactly the ACPs of other names |
| Acps.CreateThenDelete | calm/dsl/cli/acps.py:405-411 | Creating an ACP and deleting it gives back the project |
| Singleton.OneInstance | calm/dsl/api/meta.py:9-18 | In every interleaving of any number of threads and classes: no class is constructed successfully twice, all its calls return the one instance, and the read outside the lock finds it |
| Singleton.RunSound | calm/dsl/api/meta.py:9-18 | The invariant behind it, kept by every step: one call at most inside the lock, and what each call may assume where it stands |
| Singleton.EntryStays | calm/dsl/api/meta.py:12-16 | Once there, an entry is never replaced |
| Singleton.FreeExactly | calm/dsl/api/meta.py:10-16 | The lock can become free if and only if the constructor under it has not called a singleton class itself |
| Singleton.NestedCallHangs | calm/dsl/api/meta.py:10-15 | If it does, for whatever class, it waits for the lock it holds: over every continuation nothing is constructed or stored any more |
| Singleton.WayOutFrees | calm/dsl/api/meta.py:12-16 | Otherwise the holder's own next steps free the lock |
| Singleton.AloneIsRun | calm/dsl/api/meta.py:12-18 | A call nobody interrupts has the effect of `Alone`, also when its constructor raises |
| Singleton.Meta.Invoke | calm/dsl/api/meta.py:12-18 | The body as one thread runs it, with any steps of other threads between its own: it gives back the instance stored for the class, the earlier one if there was one, keeps all other entries, and ends without one only when the constructor raises |

## Left out

- HTTP, sessions, polling, logging, caches, command line and exit texts: a call is a total function of the server; an exit is a step that changes nothing.
- `strip_vmware_secrets`: one fixed path into one substrate; its branch for an unchanged domain password pops the value for good.
- A key or list that Python reads from text or a number where an object is expected is an error of the model.
- Acps.CreateAcp: filter lists, contexts and clusters of the new ACP are left out; the random default name is the name it is given, and the ACP names the server knows anywhere are a parameter.
- JSON numbers are integers, and `True == 1` of Python is not modelled.
- A context is built from strings; a name that is no string counts as the empty string.
- The secrets of the payload are told apart by context, name and value only through the decompiled map; reading that map from files is not part of this model.
- BlueprintUpload.BlueprintLaw: `strip_vmware_secrets`, which runs between the two strips, is left out; a user task that occurs in two reported configs of one name is merged into each as it was, since the merge sets the same values twice.
- BlueprintUpload.UploadBlueprint: the same pass is left out.
- BlueprintMerge.MergedRunbookArrives: names of profiles and configs are unique and the server keeps their order, since tasks are found by name and runbooks attached by position; `RunbookArrives` asks for neither.
- RunbookUpload.EndpointLaw: `default_credential_local_reference` is dropped before the upload and not put back by the client.
- The server: it returns the spec it was sent; endpoints may come back in any order. An ACP update applies each row's operation.
- PatchConfigs.AttachByPosition: a config without a runbook has `None`; an empty runbook is told from a missing one in `BlueprintUpload.ConfigPayload.AttachRunbooks` only.
- Pagers.ListAll: a `length` of zero is admitted only when one call is enough, since otherwise the loop does not end. A negative total for the page pager is not modelled.
- ACP payloads: filter lists, contexts and clusters of an ACP are not modelled, only name, role, users and groups. Payload rows are values that the loops reassign; aliasing between rows is not modelled.
- PowerActions.KeysAreTriples: task names may hold `_`; entity and action names may not, as `KeysCollide` shows.
- PatchConfigs.MergeAcyclicExactly: for one DAG in the user's list and unique names and uuids; with several DAGs the last one wins, which `MergeConfig` still covers.
- PowerActions.FindTargets: entity lists and the `status` and `spec` they are read from are there; only the errors of actions and tasks are modelled.
- PowerActions.SharedKeyMisleads: a name with calls of several keys gets the machine of the last of them that leads, as `TargetsAreTheJoin` covers.
- Singleton.Meta.Invoke: the other threads' steps are its argument, and they must have freed the lock where it waits for it; a constructor that calls a singleton class itself is in the state machine only.
- Fairness: `FreeExactly` says the lock can become free, not that a scheduler lets it.
