# Container runtime config controller: test harness and sync scenarios

This project models the test suite of the machine-config-operator's container-runtime-config
controller, in Dafny. The suite seeds a fake clientset and the informer caches with machine
config pools, a ContainerRuntimeConfig intent or the cluster Image config, and placeholder
machine configs. It runs the controller's two sync handlers, `syncImgHandler` and
`syncHandler`, and compares the actions the fake clientset recorded with the actions it expects.

The model has these parts:

- `model.dfy` (module `Model`): pools, intents, the Image config, machine configs, label
  selection, and the managed machine-config names `99-<pool>-<uid>-containerruntime` and
  `99-<pool>-<uid>-registries`, with their injectivity: over pools for one owner, and across
  intents when the UIDs have one length.
- `actions.dfy` (module `Actions`): the recorded client actions (verb, resource, subresource,
  name, object, patch) and the root-action constructors the expectations use.
- `client.dfy` (module `Client`): the fake clientset as a class whose stored objects and action
  log change in place. Each method is proved equal to a function on a `World` value.
- `validation.dfy` (module `Validation`): `validateUserContainerRuntimeConfig`, parameterised by
  a `Policy` of bounds. It includes the exact set of policies that the option-test literals and
  the sync fixtures' options (level "debug", log size 9k) admit.
- `controller.dfy` (module `Controller`): both sync handlers, as functions on `World` and as
  methods of a `Controller` class. Each method is proved to do what its function says.
- `properties.dfy` (module `Properties`): what a sync does, as exact reference traces per pool
  and in fan-out over pools. It covers frames on the machine-config store, pool selection,
  and idempotence of a second sync. Rendering does not read the platform in this model, so
  the platform-independence lemmas only restate that choice.
- `harness.dfy` (module `Harness`): `filterInformerActions`, `checkAction` (as written and as
  evidently intended) and `validateActions`.
- `fixtures.dfy` (module `Fixtures`): the test objects and expectation builders,
  `runController`, and the four sync scenarios. Each scenario is proved for every random UID,
  every platform of the test loops and every policy the option tests admit. It also holds the
  two findings below.

Neither handler's own code appears in the test file. The handlers are modelled from what the
tests expect of them: per pool, a get of the managed machine config, two status writes, a
create or an update, a finalizer patch and a final status write. The Image handler does a get
and a create or update per pool.

## Model

| member | source | states |
|---|---|---|
| Model.SelectPools | pkg/controller/container-runtime-config/container_runtime_config_controller_test.go:317-319 | The result is no longer than the pool list, and a pool is in it exactly when it is listed and its labels satisfy the intent's pool selector. |
| Model.RuntimeKeyInjective | pkg/controller/container-runtime-config/container_runtime_config_controller_test.go:306-307 | Two pools get the same runtime machine-config name for one intent only when the pools have the same name. |
| Model.RuntimeKeyPairInjective | pkg/controller/container-runtime-config/container_runtime_config_controller_test.go:129 | Across intents whose UIDs have one length, as the five-character UIDs of `utilrand.String(5)` do, two runtime names are equal only for the same pool name and the same UID. |
| Model.RuntimeKeyCollidesAcrossUidLengths | pkg/controller/container-runtime-config/container_runtime_config_controller_test.go:306-307 | With UIDs of different lengths the name format is ambiguous: pool "a-b" with UID "c" and pool "a" with UID "b-c" get the same name. |
| Model.SelectPoolsInOrder | pkg/controller/container-runtime-config/container_runtime_config_controller_test.go:317-319 | The selected pools are the listed pools taken at strictly increasing positions, and a position is taken exactly when that pool's labels satisfy the selector. |
| Model.RegistriesKeyInjective | pkg/controller/container-runtime-config/container_runtime_config_controller_test.go:426-427 | Two pools get the same registries machine-config name only when the pools have the same name, so mcs1 and mcs2 are distinct objects. |
| Model.KeyKindsDisjoint | pkg/controller/container-runtime-config/container_runtime_config_controller_test.go:426-427 | A runtime machine-config name never equals a registries machine-config name, so the two handlers never write each other's objects. |
| Client.GetMachineConfigCall | pkg/controller/container-runtime-config/container_runtime_config_controller_test.go:286-287 | A get records a root get of that name and changes nothing else. It finds an object exactly when the store holds that name, and returns the stored object. |
| Client.CreateMachineConfigCall | pkg/controller/container-runtime-config/container_runtime_config_controller_test.go:290-291 | A create records a root create carrying the object. It succeeds exactly when the name is free, and then stores the object under its name. On failure the store is unchanged. |
| Client.UpdateMachineConfigCall | pkg/controller/container-runtime-config/container_runtime_config_controller_test.go:294-295 | An update records a root update carrying the object. It succeeds exactly when the name is stored, and then replaces that object. On failure the store is unchanged. |
| Client.UpdateStatusCall | pkg/controller/container-runtime-config/container_runtime_config_controller_test.go:302-303 | A status write records an update of the status subresource. Only the stored intent's status changes, and a missing intent is an error. |
| Client.WithFinalizer | pkg/controller/container-runtime-config/container_runtime_config_controller_test.go:306-307 | Adding a finalizer token leaves it in the list and adds nothing else. Adding a token already present changes nothing. |
| Client.PatchFinalizerCall | pkg/controller/container-runtime-config/container_runtime_config_controller_test.go:298-299 | A patch records a root patch adding the finalizer token. It succeeds exactly when the intent is stored. Then only that intent's finalizer list changes, to the old list with the token added; its spec, status and the other intents stay as they were. Machine configs are untouched, and on failure nothing is stored. |
| Client.FakeClient.constructor | pkg/controller/container-runtime-config/container_runtime_config_controller_test.go:147-150 | A clientset seeded with the fixture objects, each stored under its own name, has recorded no action yet, and its store keeps every machine config under its own name. |
| Client.FakeClient.GetMachineConfig | pkg/controller/container-runtime-config/container_runtime_config_controller_test.go:286-287 | The in-place get leaves the client in the state GetMachineConfigCall gives, and returns what it returns. |
| Client.FakeClient.CreateMachineConfig | pkg/controller/container-runtime-config/container_runtime_config_controller_test.go:290-291 | The in-place create matches CreateMachineConfigCall. |
| Client.FakeClient.UpdateMachineConfig | pkg/controller/container-runtime-config/container_runtime_config_controller_test.go:294-295 | The in-place update matches UpdateMachineConfigCall. |
| Client.FakeClient.UpdateStatus | pkg/controller/container-runtime-config/container_runtime_config_controller_test.go:302-303 | The in-place status write matches UpdateStatusCall. |
| Client.FakeClient.PatchFinalizer | pkg/controller/container-runtime-config/container_runtime_config_controller_test.go:298-299 | The in-place patch matches PatchFinalizerCall. |
| Validation.FirstViolation | pkg/controller/container-runtime-config/container_runtime_config_controller_test.go:569-585 | Validation accepts exactly when no rule is broken. When it rejects, the rule it reports is broken and no earlier-ranked rule is. |
| Validation.FixturesPinPolicy | pkg/controller/container-runtime-config/container_runtime_config_controller_test.go:520-585 | A policy gives every outcome the option tests expect (pids 10, log size 3k and level "invalid" rejected; pids 2048, 10k and "debug" accepted), and accepts the sync fixtures' options, if and only if its bounds lie in the intervals those literals leave open. |
| Validation.DefaultPolicyFitsFixtures | pkg/controller/container-runtime-config/container_runtime_config_controller_test.go:520-585 | The bounds this model ships with satisfy every option test. |
| Validation.UnsetOptionsAccepted | pkg/controller/container-runtime-config/container_runtime_config_controller_test.go:545-566 | A configuration that sets no option is never rejected, whatever its overlay size. |
| Validation.AcceptanceIsMonotone | pkg/controller/container-runtime-config/container_runtime_config_controller_test.go:549-560 | Raising an accepted pids limit or log size never makes the configuration rejected. |
| Harness.FilterInformerActions | pkg/controller/container-runtime-config/container_runtime_config_controller_test.go:221-239 | The loop returns the reference filter of the recorded actions, and no list or watch of the four informer resources survives. |
| Harness.FilteredKeepsNonNoise | pkg/controller/container-runtime-config/container_runtime_config_controller_test.go:221-239 | Filtering keeps exactly the positions that are not informer noise, in their original order. |
| Harness.FilteredMembership | pkg/controller/container-runtime-config/container_runtime_config_controller_test.go:221-239 | An action is in the filtered trace if and only if it is in the input and is not informer noise. |
| Harness.FilteredIdempotent | pkg/controller/container-runtime-config/container_runtime_config_controller_test.go:218-239 | Filtering twice is filtering once. |
| Harness.FilteredOfCleanTrace | pkg/controller/container-runtime-config/container_runtime_config_controller_test.go:218-239 | A trace without informer noise passes through unchanged. |
| Harness.CheckActionAsWritten | pkg/controller/container-runtime-config/container_runtime_config_controller_test.go:243-280 | As written, an action passes exactly when verb, resource and subresource agree. Every failure is the first, shape-level one. |
| Harness.CheckAction | pkg/controller/container-runtime-config/container_runtime_config_controller_test.go:254-279 | As intended, an action passes exactly when the shapes agree, update objects are equal and patch contents are equal. An object or patch failure implies the shapes agreed. |
| Harness.AsWrittenIgnoresPayloads | pkg/controller/container-runtime-config/container_runtime_config_controller_test.go:261-278 | Two same-shaped updates with different objects, or two same-shaped patches with different contents, pass the check as written and fail the intended one. |
| Harness.ValidateActions | pkg/controller/container-runtime-config/container_runtime_config_controller_test.go:68-85 | The validation reports nothing if and only if the filtered trace has the expected length and every pair passes. It reports surplus actions exactly when there are more actual than expected actions, and missing ones exactly when there are fewer. Every failing pair is reported, and every reported pair fails. |
| Controller.Controller.constructor | pkg/controller/container-runtime-config/container_runtime_config_controller_test.go:148-188 | The controller holds the given client, caches, pools, platform and bounds. |
| Controller.Controller.Apply | pkg/controller/container-runtime-config/container_runtime_config_controller_test.go:401-404 | Creating, updating or leaving a machine config in place matches the diff-and-apply function. |
| Controller.Controller.SyncRuntimePool | pkg/controller/container-runtime-config/container_runtime_config_controller_test.go:328-333 | One pool's sync leaves the client exactly as the one-pool step function says. |
| Controller.Controller.SyncHandler | pkg/controller/container-runtime-config/container_runtime_config_controller_test.go:208-213 | The loop over the selected pools leaves the client, and returns the error, exactly as the syncHandler function says. |
| Controller.Controller.SyncImagePool | pkg/controller/container-runtime-config/container_runtime_config_controller_test.go:435-436 | One pool's Image sync matches the one-pool Image step function. |
| Controller.Controller.SyncImgHandler | pkg/controller/container-runtime-config/container_runtime_config_controller_test.go:201-206 | The loop over all pools leaves the client, and returns the error, exactly as the syncImgHandler function says. |
| Properties.ApplyEffect | pkg/controller/container-runtime-config/container_runtime_config_controller_test.go:401-404 | On a store that keeps every machine config under its own name, diff-and-apply after a get succeeds. It records exactly the needed create or update, or nothing, and changes only the desired name: to the stored object with the rendered content, or to the rendered object when there was none. |
| Properties.RuntimePoolStepEffect | pkg/controller/container-runtime-config/container_runtime_config_controller_test.go:328-333 | When the intent is stored, one pool's step succeeds and appends exactly the reference trace: get, status, status, the needed create or update, the patch when the finalizer is missing, and status. |
| Properties.RuntimePoolStepStore | pkg/controller/container-runtime-config/container_runtime_config_controller_test.go:401-404 | After one pool's step, the pool's key holds the rendered content, on the stored object when there was one. No other machine config changes, and with nothing to write the store is unchanged. |
| Properties.RuntimePoolStepStatus | pkg/controller/container-runtime-config/container_runtime_config_controller_test.go:328-333 | After one pool's step, the stored intent records success at its generation, and the set of stored intents is unchanged. When the cached intent lacked the pool's finalizer token, the stored intent carries it afterwards. |
| Properties.RuntimePoolsEffect | pkg/controller/container-runtime-config/container_runtime_config_controller_test.go:317-333 | Over any pool list: no error, the old log is a prefix of the new one, every listed pool's key holds the rendered content, and machine configs outside those keys are untouched. |
| Properties.SyncRuntimeSelectsPools | pkg/controller/container-runtime-config/container_runtime_config_controller_test.go:317-319 | Every pool the selector matches ends up with the rendered machine config. The machine config a non-matching pool would own is neither created nor changed. |
| Properties.RuntimePoolsSettled | pkg/controller/container-runtime-config/container_runtime_config_controller_test.go:401-404 | Pools whose machine configs already hold the rendered content get no create or update, and the store is unchanged. |
| Properties.SyncRuntimeIdempotent | pkg/controller/container-runtime-config/container_runtime_config_controller_test.go:396-406 | A second syncHandler run with the same caches writes no machine config and leaves the store as the first run left it. |
| Properties.ImagePoolStepEffect | pkg/controller/container-runtime-config/container_runtime_config_controller_test.go:435-436 | One pool's Image step appends a get and the needed write. Only the pool's own key changes, and it ends up with the rendered registries content. |
| Properties.CreateFanOut | pkg/controller/container-runtime-config/container_runtime_config_controller_test.go:435-438 | The first-sync reference trace has two actions per pool: the get of pool i's registries name at 2i and its create at 2i+1. |
| Properties.UpdateFanOut | pkg/controller/container-runtime-config/container_runtime_config_controller_test.go:506-509 | The later-sync reference trace has two actions per pool: get at 2i, and at 2i+1 an update of the stored object with the rendered content. It contains no create. |
| Properties.ImageFanOutCreates | pkg/controller/container-runtime-config/container_runtime_config_controller_test.go:435-440 | Over distinct pools with no registries machine config yet, the Image sync succeeds and records exactly the create fan-out. |
| Properties.ImageFanOutUpdates | pkg/controller/container-runtime-config/container_runtime_config_controller_test.go:501-509 | Over distinct pools whose registries machine configs exist with other content, the Image sync succeeds and records exactly the update fan-out. |
| Properties.ImagePoolsEffect | pkg/controller/container-runtime-config/container_runtime_config_controller_test.go:425-438 | The Image sync leaves every pool's registries key with the rendered content, whatever the pools' labels, and touches nothing outside those keys. |
| Properties.ImagePoolsSettled | pkg/controller/container-runtime-config/container_runtime_config_controller_test.go:506-509 | Pools already holding the rendered registries content get no write. |
| Properties.SyncImageIdempotent | pkg/controller/container-runtime-config/container_runtime_config_controller_test.go:501-509 | A second syncImgHandler run writes no machine config and leaves the store unchanged. |
| Properties.RuntimePoolsPlatformIndependent | pkg/controller/container-runtime-config/container_runtime_config_controller_test.go:343-344 | The pool loop of syncHandler does the same whatever the platform. This holds because rendering does not read the platform in this model (see Left out). |
| Properties.ImagePoolsPlatformIndependent | pkg/controller/container-runtime-config/container_runtime_config_controller_test.go:448-449 | The pool loop of syncImgHandler does the same whatever the platform. This holds because rendering does not read the platform in this model (see Left out). |
| Properties.HandlersPlatformIndependent | pkg/controller/container-runtime-config/container_runtime_config_controller_test.go:312-313 | Both handlers do the same on every platform the tests loop over, given that rendering does not read the platform (see Left out). syncImgHandler also does the same whatever key it is given. |
| Fixtures.SelectsMasterOnly | pkg/controller/container-runtime-config/container_runtime_config_controller_test.go:317-319 | The set-log-level selector custom-crio=my-config reaches the master pool and not the worker pool. |
| Fixtures.ShapesValidate | pkg/controller/container-runtime-config/container_runtime_config_controller_test.go:68-85 | Traces that agree action by action in shape pass validation as written. |
| Fixtures.RuntimeStepMatches | pkg/controller/container-runtime-config/container_runtime_config_controller_test.go:328-333 | A one-pool trace with a single write shaped like the expected one is unaffected by filtering, agrees in shape with the six expected actions, and validates. |
| Fixtures.CreateScenarioRun | pkg/controller/container-runtime-config/container_runtime_config_controller_test.go:198-215 | In the create test, syncImgHandler finds no Image config and records nothing, and syncHandler is exactly one step on the master pool. |
| Fixtures.RunController | pkg/controller/container-runtime-config/container_runtime_config_controller_test.go:198-216 | A run reports no failure if and only if each handler errs exactly when an error is expected and the recorded trace validates. |
| Fixtures.ContainerRuntimeConfigCreate | pkg/controller/container-runtime-config/container_runtime_config_controller_test.go:311-338 | For every UID, platform and admitted policy: both handlers succeed, the trace is get, status, status, create, patch, status and validates, the master machine config is created with the rendered content, and the stored intent records success and carries its finalizer. |
| Fixtures.UpdateScenarioStep | pkg/controller/container-runtime-config/container_runtime_config_controller_test.go:384-396 | With the placeholder stored, the master step updates it in place with the rendered content and records the reference trace. |
| Fixtures.SingleStoreUpdateStep | pkg/controller/container-runtime-config/container_runtime_config_controller_test.go:401-406 | Over a store holding only the pool's own machine config with other content, a pool step succeeds, records the reference trace, and leaves that one object with the rendered content. |
| Fixtures.EmptyStoreCreateStep | pkg/controller/container-runtime-config/container_runtime_config_controller_test.go:328-333 | Over an empty store with a stored intent and no finalizers, a pool step creates exactly the pool's machine config, records the reference trace, marks the status succeeded and adds the finalizer. |
| Fixtures.ContainerRuntimeConfigUpdate | pkg/controller/container-runtime-config/container_runtime_config_controller_test.go:377-408 | The second phase's trace is get, status, status, update, patch, status and validates. The machine config ends up as the placeholder with the content rendered from the cached intent ("debug"), not from the edited stored one ("warn"). |
| Fixtures.ImageCreateTrace | pkg/controller/container-runtime-config/container_runtime_config_controller_test.go:435-438 | On an empty store the Image sync records exactly the create fan-out and leaves one machine config per pool. |
| Fixtures.ImageConfigCreate | pkg/controller/container-runtime-config/container_runtime_config_controller_test.go:417-443 | Both pools, master first, get a get and a create whatever their labels, the trace validates, and the store holds exactly the two registries machine configs. |
| Fixtures.ImageUpdateTrace | pkg/controller/container-runtime-config/container_runtime_config_controller_test.go:493-501 | With both placeholders stored, syncImgHandler("") succeeds and records exactly the update fan-out. |
| Fixtures.ImageConfigUpdate | pkg/controller/container-runtime-config/container_runtime_config_controller_test.go:481-511 | The second phase's trace is get, update, get, update, master first, with no create at all, and it validates. |
| Fixtures.PatchTokenNeedsFixedUid | pkg/controller/container-runtime-config/container_runtime_config_controller_test.go:306-307 | The master pool's runtime name equals the token in the fixed patch bytes if and only if the random UID is "sx2vr". |
| Fixtures.FindingPatchNeverCompared | pkg/controller/container-runtime-config/container_runtime_config_controller_test.go:270-278 | In the create scenario the fifth action, the finalizer patch, passes the check as written for every UID. It passes the intended check only when the UID is "sx2vr". |
| Fixtures.MasterUpdateCarriesRendering | pkg/controller/container-runtime-config/container_runtime_config_controller_test.go:506-507 | In the Image update the master update carries rendered content while the expectation carries the placeholder, so the intended check fails it for its object. |
| Fixtures.FindingUpdateObjectNeverCompared | pkg/controller/container-runtime-config/container_runtime_config_controller_test.go:254-269 | The Image update trace validates as written, but the intended check rejects its second action for a wrong object, so the trace does not validate under it. |

## Left out

- Informers, listers syncing, work queues and the event recorder are left out. The caches are plain maps given to the controller, and informer list/watch noise appears only as actions the filter drops.
- The test's logging (`glog`) and the `t.Errorf` message texts are left out. A failure is a `TestFailure` value.
- Rendering from the template directory and Ignition file contents are left out. A rendered machine config carries its source options as `Content`, and the hand-built placeholders carry `Placeholder`.
- `resource.Quantity` parsing is left out. The literals "3k", "9k", "10k" and "3G" appear as the byte counts 3000, 9000, 10000 and 3000000000.
- Random UIDs from `utilrand.String(5)` are a parameter. Every scenario is proved for all of them.
- The patch bytes are modelled as the finalizer tokens they add, not as JSON.
- Deep equality of Kubernetes objects is datatype equality. Group and version in resources are not modelled, and `Matches` compares verb and resource exactly.
- Namespaced actions, delete actions, conflicts and retries are not exercised by the tests and are not modelled.
- The controller's own source is not part of this model. The handlers follow what the tests expect of them. Where behaviour is not fixed by the tests, the model makes a choice:
  - the registries name format `99-<pool>-<uid>-registries`;
  - the rule order log level, pids limit, log size;
  - diff-before-write;
  - a patch only when the cached intent lacks the finalizer;
  - a single status write on a rejected intent.
- Validation.DefaultPolicy: its thresholds (pids 20, log size 8192 bytes) and its level set are chosen values. The option tests and the sync fixtures' options fix only what `Validation.FitsFixtures` states: the two intervals, "debug" accepted and "invalid" rejected. No test validates "warn", since line 387 keeps the "debug" intent in the lister. The scenarios are proved for every policy that fits.
- The first phases of TestContainerRuntimeConfigUpdate (lines 366-374) and TestImageConfigUpdate (lines 470-478) call one handler directly rather than through `runController`. They record the same trace as the create scenarios, because the other handler records nothing there. They have no lemma of their own.
- `runExpectError` is covered only through the `expectError` parameter of `Fixtures.RunController`. No test in the file uses it.
- Properties.RuntimePoolsPlatformIndependent, Properties.ImagePoolsPlatformIndependent and Properties.HandlersPlatformIndependent restate a modelling choice: `Controller.RenderRuntime` and `Controller.RenderRegistries` do not read the platform, because the template directories the platform selects are not part of this model. The tests looping over "aws", "none" and "unrecognized" show independence only as far as the check as written sees it, in verb, resource and subresource.
- Model.RuntimeKeyInjective: proved for one intent over pools. Across intents, `Model.RuntimeKeyPairInjective` needs UIDs of one length, and `Model.RuntimeKeyCollidesAcrossUidLengths` shows the collision without it. The name format is taken from the bytes at line 307.
- Fixtures.ImageConfigCreate and Fixtures.ImageConfigUpdate: the master-first order of the writes follows the order of the pool lister in the model's handler. The check as written compares only verb, resource and subresource, so the tests do not fix that order.
- `getKey` is the object's name, since every object here is cluster-scoped.

## Findings

| source | as written | input that shows it | evidently intended | confidence | as-written member | corrected member |
|---|---|---|---|---|---|---|
| pkg/controller/container-runtime-config/container_runtime_config_controller_test.go:275 | The patch case compares the expected patch with itself, so any patch passes. | TestContainerRuntimeConfigCreate with a random UID other than "sx2vr": the actual finalizer patch differs from the fixed bytes at line 307, yet the action passes. | Compare the expected patch with the actual patch. | not executed | Harness.CheckActionAsWritten (shown by Fixtures.FindingPatchNeverCompared) | Harness.CheckAction |
| pkg/controller/container-runtime-config/container_runtime_config_controller_test.go:254-269 | The type switch tests `CreateAction` first. Update actions also satisfy that interface, which has the same method set as `UpdateAction`, so they take the create branch and their objects are never compared. | TestImageConfigUpdate, second phase: the master update carries rendered content while the expectation is the placeholder mcs1, yet the trace validates. | Dispatch on the action's own kind, so updates compare their objects. | not executed | Harness.CheckActionAsWritten (shown by Fixtures.FindingUpdateObjectNeverCompared) | Harness.CheckAction |
