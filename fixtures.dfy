/** The controller's test fixtures: the pools, intents and placeholder machine
    configs the tests build, the actions they expect, `runController`, and the
    four sync scenarios, each proved for every random UID, every platform and every
    validation policy that fits the option tests. */
module Fixtures {
  import opened Model
  import opened Actions
  import opened Client
  import opened Validation
  import opened Controller
  import opened Harness
  import opened Properties

  // ---------------------------------------------------------------------------
  // Objects

  const Master := Pool("master", map["custom-crio" := "my-config"], map["node-role" := "master"], "v0")
  const Worker := Pool("worker", map["custom-crio" := "storage-config"], map["node-role" := "worker"], "v0")
  const TestPools := [Master, Worker]

  /** The `set-log-level` intent: level, "9k" log size, "3G" overlay size, selecting
      pools labelled custom-crio=my-config. Its UID is random. */
  function SetLogLevel(uid: string, level: string): RuntimeConfig {
    RuntimeConfig("set-log-level", uid, 1, RuntimeSpec(level, 9000, 3000000000, 0),
                  map["custom-crio" := "my-config"], [], EmptyStatus)
  }

  function ClusterImage(uid: string, insecure: seq<string>): ImageConfig {
    ImageConfig(ClusterImageName, uid, 1, insecure, [], [])
  }

  /** A hand-built machine config: role label, a dummy OS image and one empty file. */
  function NewMachineConfig(name: string, role: string): MachineConfig {
    MachineConfig(name, map["node-role" := role], "dummy://", Placeholder)
  }

  /** The work-queue key of a cluster-scoped object is its name. */
  function GetKey(cfg: RuntimeConfig): string {
    cfg.name
  }

  /** The patch the tests expect: adding the finalizer of the master pool for UID "sx2vr". */
  const CtrcfgPatch := AddFinalizers(["99-master-sx2vr-containerruntime"])

  // ---------------------------------------------------------------------------
  // Expected actions

  function ExpectGetMachineConfig(mc: MachineConfig): Action {
    RootGet(MachineConfigs, mc.name)
  }

  function ExpectCreateMachineConfig(mc: MachineConfig): Action {
    RootCreate(MachineConfigs, MachineConfigObject(mc))
  }

  function ExpectUpdateMachineConfig(mc: MachineConfig): Action {
    RootUpdate(MachineConfigs, MachineConfigObject(mc))
  }

  function ExpectPatchRuntimeConfig(cfg: RuntimeConfig, patch: PatchBody): Action {
    RootPatch(ContainerRuntimeConfigs, cfg.name, patch)
  }

  function ExpectUpdateRuntimeConfig(cfg: RuntimeConfig): Action {
    RootUpdateSubresource(ContainerRuntimeConfigs, StatusSubresource, RuntimeConfigObject(cfg))
  }

  /** What a ContainerRuntimeConfig test expects for one pool: get, two status
      writes, the machine-config write, the finalizer patch, the final status. */
  function RuntimeExpectations(cfg: RuntimeConfig, mc: MachineConfig, write: Action): seq<Action> {
    [ExpectGetMachineConfig(mc), ExpectUpdateRuntimeConfig(cfg), ExpectUpdateRuntimeConfig(cfg),
     write, ExpectPatchRuntimeConfig(cfg, CtrcfgPatch), ExpectUpdateRuntimeConfig(cfg)]
  }

  // ---------------------------------------------------------------------------
  // runController

  /** A fresh clientset seeded with the objects, syncImgHandler and then syncHandler
      with the same key, returning both replies. */
  function Run(objects: map<string, MachineConfig>, runtimeObjects: map<string, RuntimeConfig>,
               runtimeLister: map<string, RuntimeConfig>, imageLister: map<string, ImageConfig>,
               pools: seq<Pool>, platform: string, policy: Policy, key: string): (Reply, Reply)
  {
    var img := SyncImage(World(objects, runtimeObjects, []), imageLister, pools, key, platform);
    (img, SyncRuntime(img.world, runtimeLister, pools, key, policy, platform))
  }

  /** runController: build the controller, run both handlers, report a handler error
      (or a missing one when an error is expected), then validate the recorded actions.
      The run fails exactly when a handler's outcome is not the expected one or the
      recorded trace does not validate. */
  method RunController(objects: map<string, MachineConfig>, runtimeObjects: map<string, RuntimeConfig>,
                       runtimeLister: map<string, RuntimeConfig>, imageLister: map<string, ImageConfig>,
                       pools: seq<Pool>, platform: string, policy: Policy, key: string,
                       expected: seq<Action>, expectError: bool)
    returns (failures: seq<TestFailure>)
    requires WellKeyed(World(objects, runtimeObjects, []))
    ensures var (img, rt) := Run(objects, runtimeObjects, runtimeLister, imageLister, pools, platform, policy, key);
      failures == [] <==>
        (img.err.Some? <==> expectError) && (rt.err.Some? <==> expectError) &&
        Validates(true, expected, Filtered(rt.world.actions))
  {
    var client := new FakeClient(objects, runtimeObjects);
    var c := new Controller(client, runtimeLister, imageLister, pools, platform, policy);
    failures := [];
    var err := c.SyncImgHandler(key);
    if !expectError && err.Some? {
      failures := failures + [SyncError("image config")];
    } else if expectError && err.None? {
      failures := failures + [MissingSyncError("image config")];
    }
    err := c.SyncHandler(key);
    if !expectError && err.Some? {
      failures := failures + [SyncError("containerruntimeconfigs")];
    } else if expectError && err.None? {
      failures := failures + [MissingSyncError("containerruntimeconfigs")];
    }
    var checked := ValidateActions(expected, client.actions, true);
    failures := failures + checked;
  }

  // ---------------------------------------------------------------------------
  // Scenarios

  lemma TestPoolsDistinct()
    ensures DistinctNames(TestPools)
  {
  }

  lemma SelectsMasterOnly(cfg: RuntimeConfig)
    requires cfg.poolSelector == map["custom-crio" := "my-config"]
    ensures SelectPools(cfg.poolSelector, TestPools) == [Master]
  {
    assert Worker.labels["custom-crio"][0] == 's';
    assert !Selects(cfg.poolSelector, Worker.labels);
    assert TestPools[1..] == [Worker];
    assert [Worker][1..] == [];
  }

  /** Traces whose shapes agree pairwise pass the check as written. */
  lemma ShapesValidate(expected: seq<Action>, actual: seq<Action>)
    requires SameShapes(expected, actual)
    ensures Validates(true, expected, actual)
  {
    forall i | 0 <= i < |actual|
      ensures CheckActionAsWritten(expected[i], actual[i]) == Pass
    {
      assert ShapeOf(expected[i]) == ShapeOf(actual[i]);
    }
  }

  /** No list or watch: filtering leaves the trace as it is. */
  lemma NoInformerNoise(t: seq<Action>)
    requires forall a :: a in t ==> a.verb != List && a.verb != Watch
    ensures Filtered(t) == t
  {
    FilteredOfCleanTrace(t);
  }

  /** A sync of one pool, when the intent lacks the finalizer and the needed write is a
      single action shaped like `write`, matches the ContainerRuntimeConfig test expectations. */
  lemma RuntimeStepMatches(w: World, cfg: RuntimeConfig, pool: Pool, platform: string,
                           expectedCfg: RuntimeConfig, mc: MachineConfig, write: Action)
    requires expectedCfg.name == cfg.name && mc.name == RuntimeKey(pool, cfg)
    requires RuntimeKey(pool, cfg) !in cfg.finalizers
    requires var t := MachineConfigWrite(w, RuntimeKey(pool, cfg), RenderRuntime(pool, cfg, platform));
      |t| == 1 && ShapeOf(t[0]) == ShapeOf(write) && t[0].verb != List && t[0].verb != Watch
    ensures var t := RuntimeStepTrace(w, cfg, pool, platform);
      var expected := RuntimeExpectations(expectedCfg, mc, write);
      && Filtered(t) == t
      && SameShapes(t, expected)
      && Validates(true, expected, t)
  {
    var key := RuntimeKey(pool, cfg);
    var t := RuntimeStepTrace(w, cfg, pool, platform);
    var m := MachineConfigWrite(w, key, RenderRuntime(pool, cfg, platform));
    assert t == [RootGet(MachineConfigs, key), StatusWrite(cfg), StatusWrite(cfg), m[0],
                 RootPatch(ContainerRuntimeConfigs, cfg.name, AddFinalizers([key])), StatusWrite(Synced(cfg))];
    var expected := RuntimeExpectations(expectedCfg, mc, write);
    assert forall i :: 0 <= i < 6 ==> ShapeOf(t[i]) == ShapeOf(expected[i]);
    ShapesValidate(expected, t);
    NoInformerNoise(t);
  }

  /** syncHandler on the set-log-level intent over the test pools is one step on the master pool. */
  lemma SyncRuntimeOnTestPools(w: World, cache: map<string, RuntimeConfig>, key: string, policy: Policy, platform: string)
    requires key in cache && cache[key].poolSelector == map["custom-crio" := "my-config"]
    requires Accepts(policy, cache[key].spec)
    ensures SyncRuntime(w, cache, TestPools, key, policy, platform) == RuntimePoolStep(w, cache[key], Master, platform)
  {
    var cfg := cache[key];
    SelectsMasterOnly(cfg);
    var r := RuntimePoolStep(w, cfg, Master, platform);
    if r.err.None? {
      assert RuntimePools(r.world, cfg, [Master][1..], platform) == Reply(r.world, None);
    }
  }

  /** The create scenario's run: the Image handler finds no Image config and records
      nothing; the runtime handler is one step on the master pool. */
  lemma CreateScenarioRun(uid: string, platform: string, policy: Policy)
    requires FitsFixtures(policy)
    ensures var cfg := SetLogLevel(uid, "debug");
      var w0 := World(map[], map[cfg.name := cfg], []);
      Run(map[], map[cfg.name := cfg], map[cfg.name := cfg], map[], TestPools, platform, policy, GetKey(cfg)) ==
        (Reply(w0, None), RuntimePoolStep(w0, cfg, Master, platform))
  {
    var cfg := SetLogLevel(uid, "debug");
    var w0 := World(map[], map[cfg.name := cfg], []);
    assert Accepts(policy, cfg.spec);
    SyncRuntimeOnTestPools(w0, map[cfg.name := cfg], GetKey(cfg), policy, platform);
  }

  /** The create scenario's step: the master pool's machine config is created. */
  lemma CreateScenarioStep(uid: string, platform: string)
    ensures var cfg := SetLogLevel(uid, "debug");
      var key := RuntimeKey(Master, cfg);
      var w0 := World(map[], map[cfg.name := cfg], []);
      var r := RuntimePoolStep(w0, cfg, Master, platform);
      && MachineConfigWrite(w0, key, RenderRuntime(Master, cfg, platform)) ==
           [RootCreate(MachineConfigs, MachineConfigObject(RenderRuntime(Master, cfg, platform)))]
      && r.err == None
      && r.world.actions == RuntimeStepTrace(w0, cfg, Master, platform)
      && r.world.machineConfigs.Keys == {key}
      && r.world.machineConfigs[key].content == RuntimeContent(cfg.spec)
      && cfg.name in r.world.runtimeConfigs
      && r.world.runtimeConfigs[cfg.name].status == Status(1, Succeeded)
      && key in r.world.runtimeConfigs[cfg.name].finalizers
  {
    var cfg := SetLogLevel(uid, "debug");
    EmptyStoreCreateStep(World(map[], map[cfg.name := cfg], []), cfg, Master, platform);
  }

  /** A pool step over an empty store with a fresh intent: the pool's machine config is
      created, the status records success and the finalizer is added. */
  lemma EmptyStoreCreateStep(w: World, cfg: RuntimeConfig, pool: Pool, platform: string)
    requires w.machineConfigs == map[] && w.actions == []
    requires cfg.name in w.runtimeConfigs && cfg.finalizers == []
    ensures var key := RuntimeKey(pool, cfg);
      var r := RuntimePoolStep(w, cfg, pool, platform);
      && MachineConfigWrite(w, key, RenderRuntime(pool, cfg, platform)) ==
           [RootCreate(MachineConfigs, MachineConfigObject(RenderRuntime(pool, cfg, platform)))]
      && r.err == None
      && r.world.actions == RuntimeStepTrace(w, cfg, pool, platform)
      && r.world.machineConfigs.Keys == {key}
      && r.world.machineConfigs[key].content == RuntimeContent(cfg.spec)
      && cfg.name in r.world.runtimeConfigs
      && r.world.runtimeConfigs[cfg.name].status == Status(cfg.generation, Succeeded)
      && key in r.world.runtimeConfigs[cfg.name].finalizers
  {
    var key := RuntimeKey(pool, cfg);
    RuntimePoolStepEffect(w, cfg, pool, platform);
    RuntimePoolStepStore(w, cfg, pool, platform);
    RuntimePoolStepStatus(w, cfg, pool, platform);
    var r := RuntimePoolStep(w, cfg, pool, platform);
    assert [] + RuntimeStepTrace(w, cfg, pool, platform) == RuntimeStepTrace(w, cfg, pool, platform);
    forall k | k in r.world.machineConfigs ensures k == key {
      assert k in r.world.machineConfigs - {key} <==> k in w.machineConfigs - {key};
    }
  }

  /** TestContainerRuntimeConfigCreate: the intent reaches the master pool only; the
      trace is get, status, status, create, patch, status and passes validation; the
      master pool's machine config is created with the rendered content and the stored
      intent records success and carries its finalizer. */
  lemma ContainerRuntimeConfigCreate(uid: string, platform: string, policy: Policy)
    requires FitsFixtures(policy)
    ensures var cfg := SetLogLevel(uid, "debug");
      var key := RuntimeKey(Master, cfg);
      var mcs1 := NewMachineConfig(key, "master");
      var (img, rt) := Run(map[], map[cfg.name := cfg], map[cfg.name := cfg], map[], TestPools, platform, policy, GetKey(cfg));
      var expected := RuntimeExpectations(cfg, mcs1, ExpectCreateMachineConfig(mcs1));
      && img.err == None && rt.err == None
      && SameShapes(Filtered(rt.world.actions), expected)
      && Validates(true, expected, Filtered(rt.world.actions))
      && rt.world.machineConfigs.Keys == {key}
      && rt.world.machineConfigs[key].content == RuntimeContent(cfg.spec)
      && cfg.name in rt.world.runtimeConfigs
      && rt.world.runtimeConfigs[cfg.name].status == Status(1, Succeeded)
      && key in rt.world.runtimeConfigs[cfg.name].finalizers
  {
    var cfg := SetLogLevel(uid, "debug");
    var key := RuntimeKey(Master, cfg);
    var mcs1 := NewMachineConfig(key, "master");
    var w0 := World(map[], map[cfg.name := cfg], []);
    CreateScenarioRun(uid, platform, policy);
    CreateScenarioStep(uid, platform);
    RuntimeStepMatches(w0, cfg, Master, platform, cfg, mcs1, ExpectCreateMachineConfig(mcs1));
  }

  /** The update scenario's run: syncHandler is one step on the master pool, driven by the cached intent. */
  lemma UpdateScenarioRun(uid: string, platform: string, policy: Policy)
    requires FitsFixtures(policy)
    ensures var cfg := SetLogLevel(uid, "debug");
      var update := SetLogLevel(uid, "warn");
      var key := RuntimeKey(Master, cfg);
      var w0 := World(map[key := NewMachineConfig(key, "master")], map[update.name := update], []);
      SyncRuntime(w0, map[cfg.name := cfg], TestPools, GetKey(update), policy, platform) ==
        RuntimePoolStep(w0, cfg, Master, platform)
  {
    var cfg := SetLogLevel(uid, "debug");
    var update := SetLogLevel(uid, "warn");
    var key := RuntimeKey(Master, cfg);
    var w0 := World(map[key := NewMachineConfig(key, "master")], map[update.name := update], []);
    assert Accepts(policy, cfg.spec);
    SyncRuntimeOnTestPools(w0, map[cfg.name := cfg], GetKey(update), policy, platform);
  }

  /** The update scenario's step: the placeholder is updated in place with the rendered content. */
  lemma UpdateScenarioStep(uid: string, platform: string)
    ensures var cfg := SetLogLevel(uid, "debug");
      var update := SetLogLevel(uid, "warn");
      var key := RuntimeKey(Master, cfg);
      var mcs := NewMachineConfig(key, "master");
      var w0 := World(map[key := mcs], map[update.name := update], []);
      var r := RuntimePoolStep(w0, cfg, Master, platform);
      && MachineConfigWrite(w0, key, RenderRuntime(Master, cfg, platform)) ==
           [RootUpdate(MachineConfigs, MachineConfigObject(mcs.(content := RuntimeContent(cfg.spec))))]
      && r.err == None
      && r.world.actions == RuntimeStepTrace(w0, cfg, Master, platform)
      && r.world.machineConfigs == map[key := mcs.(content := RuntimeContent(cfg.spec))]
  {
    var cfg := SetLogLevel(uid, "debug");
    var update := SetLogLevel(uid, "warn");
    var key := RuntimeKey(Master, cfg);
    var mcs := NewMachineConfig(key, "master");
    var w0 := World(map[key := mcs], map[update.name := update], []);
    SingleStoreUpdateWrite(w0, cfg, Master, platform, mcs);
    SingleStoreUpdateStep(w0, cfg, Master, platform, mcs);
  }

  /** A pool step over a store holding only the pool's own machine config, with other
      content: that one object is updated in place with the rendered content. */
  lemma SingleStoreUpdateStep(w: World, cfg: RuntimeConfig, pool: Pool, platform: string, mc: MachineConfig)
    requires mc.name == RuntimeKey(pool, cfg) && w.machineConfigs == map[mc.name := mc]
    requires mc.content != RuntimeContent(cfg.spec)
    requires cfg.name in w.runtimeConfigs && w.actions == []
    ensures var key := RuntimeKey(pool, cfg);
      var r := RuntimePoolStep(w, cfg, pool, platform);
      && r.err == None
      && r.world.actions == RuntimeStepTrace(w, cfg, pool, platform)
      && r.world.machineConfigs == map[key := mc.(content := RuntimeContent(cfg.spec))]
  {
    var key := RuntimeKey(pool, cfg);
    RuntimePoolStepEffect(w, cfg, pool, platform);
    RuntimePoolStepStore(w, cfg, pool, platform);
    var r := RuntimePoolStep(w, cfg, pool, platform);
    SingletonStore(r.world.machineConfigs, w.machineConfigs, key, mc.(content := RuntimeContent(cfg.spec)));
    assert [] + RuntimeStepTrace(w, cfg, pool, platform) == RuntimeStepTrace(w, cfg, pool, platform);
  }

  /** A store that changed only under `key`, starting from that key alone, holds that key alone. */
  lemma SingletonStore(m: map<string, MachineConfig>, m0: map<string, MachineConfig>, key: string, v: MachineConfig)
    requires m0.Keys == {key} && m - {key} == m0 - {key}
    requires key in m && m[key] == v
    ensures m == map[key := v]
  {
    forall k | k in m ensures k == key {
      assert k in m - {key} <==> k in m0 - {key};
    }
  }

  /** Over a store holding only the pool's own machine config with other content, the
      needed write is an update of that object carrying the rendered content. */
  lemma SingleStoreUpdateWrite(w: World, cfg: RuntimeConfig, pool: Pool, platform: string, mc: MachineConfig)
    requires mc.name == RuntimeKey(pool, cfg) && w.machineConfigs == map[mc.name := mc]
    requires mc.content != RuntimeContent(cfg.spec)
    ensures MachineConfigWrite(w, RuntimeKey(pool, cfg), RenderRuntime(pool, cfg, platform)) ==
      [RootUpdate(MachineConfigs, MachineConfigObject(mc.(content := RuntimeContent(cfg.spec))))]
  {
  }

  /** TestContainerRuntimeConfigUpdate, second phase: the client holds the placeholder
      machine config and the edited intent (level "warn"), while the cache still holds
      the original. The trace is get, status, status, update, patch, status and passes
      validation; the machine config is updated in place to the content rendered from
      the cached intent. */
  lemma ContainerRuntimeConfigUpdate(uid: string, platform: string, policy: Policy)
    requires FitsFixtures(policy)
    ensures var cfg := SetLogLevel(uid, "debug");
      var update := SetLogLevel(uid, "warn");
      var key := RuntimeKey(Master, cfg);
      var mcs := NewMachineConfig(key, "master");
      var rt := SyncRuntime(World(map[key := mcs], map[update.name := update], []), map[cfg.name := cfg],
                            TestPools, GetKey(update), policy, platform);
      var expected := RuntimeExpectations(update, mcs, ExpectUpdateMachineConfig(mcs));
      && rt.err == None
      && SameShapes(Filtered(rt.world.actions), expected)
      && Validates(true, expected, Filtered(rt.world.actions))
      && rt.world.machineConfigs == map[key := mcs.(content := RuntimeContent(cfg.spec))]
  {
    var cfg := SetLogLevel(uid, "debug");
    var update := SetLogLevel(uid, "warn");
    var key := RuntimeKey(Master, cfg);
    var mcs := NewMachineConfig(key, "master");
    var w0 := World(map[key := mcs], map[update.name := update], []);
    UpdateScenarioRun(uid, platform, policy);
    UpdateScenarioStep(uid, platform);
    RuntimeStepMatches(w0, cfg, Master, platform, update, mcs, ExpectUpdateMachineConfig(mcs));
  }

  /** What an Image config test expects: for master and then worker, a get and the machine-config write. */
  function ImageExpectations(mcs1: MachineConfig, write1: Action, mcs2: MachineConfig, write2: Action): seq<Action> {
    [ExpectGetMachineConfig(mcs1), write1, ExpectGetMachineConfig(mcs2), write2]
  }

  /** A fan-out over the test pools whose odd actions are shaped like `write` applied to
      the placeholders matches the Image test expectations. */
  lemma ImageFanOutMatches(t: seq<Action>, img: ImageConfig, mcs1: MachineConfig, write1: Action,
                           mcs2: MachineConfig, write2: Action)
    requires |t| == 4
    requires t[0] == RootGet(MachineConfigs, RegistriesKey(Master, img)) && mcs1.name == RegistriesKey(Master, img)
    requires t[2] == RootGet(MachineConfigs, RegistriesKey(Worker, img)) && mcs2.name == RegistriesKey(Worker, img)
    requires ShapeOf(t[1]) == ShapeOf(write1) && ShapeOf(t[3]) == ShapeOf(write2)
    requires t[1].verb != List && t[1].verb != Watch && t[3].verb != List && t[3].verb != Watch
    ensures var expected := ImageExpectations(mcs1, write1, mcs2, write2);
      && Filtered(t) == t
      && SameShapes(t, expected)
      && Validates(true, expected, t)
  {
    var expected := ImageExpectations(mcs1, write1, mcs2, write2);
    assert forall i :: 0 <= i < 4 ==> ShapeOf(t[i]) == ShapeOf(expected[i]);
    ShapesValidate(expected, t);
    NoInformerNoise(t);
  }

  /** The Image create scenario's run: the fan-out over both pools, and then a
      runtime handler that finds no intent under the key "cluster". */
  lemma ImageCreateRun(uid: string, platform: string, policy: Policy)
    ensures var img := ClusterImage(uid, ["blah.io"]);
      var ri := ImagePools(World(map[], map[], []), img, TestPools, platform);
      Run(map[], map[], map[], map[ClusterImageName := img], TestPools, platform, policy, ClusterImageName) ==
        (ri, Reply(ri.world, None))
  {
  }

  /** The Image create scenario's fan-out: exactly the create fan-out, leaving one
      machine config per pool. */
  lemma ImageCreateTrace(uid: string, platform: string)
    ensures var img := ClusterImage(uid, ["blah.io"]);
      var ri := ImagePools(World(map[], map[], []), img, TestPools, platform);
      && ri.err == None
      && ri.world.actions == CreateFanOut(img, TestPools, platform)
      && ri.world.machineConfigs.Keys == {RegistriesKey(Master, img), RegistriesKey(Worker, img)}
  {
    var img := ClusterImage(uid, ["blah.io"]);
    TestPoolsDistinct();
    ImageFanOutCreates(World(map[], map[], []), img, TestPools, platform);
    ImageCreateKeys(img, platform);
  }

  /** From an empty store, the Image sync over the test pools stores exactly their two keys. */
  lemma ImageCreateKeys(img: ImageConfig, platform: string)
    ensures ImagePools(World(map[], map[], []), img, TestPools, platform).world.machineConfigs.Keys ==
      {RegistriesKey(Master, img), RegistriesKey(Worker, img)}
  {
    var w0 := World(map[], map[], []);
    ImagePoolsEffect(w0, img, TestPools, platform);
    var m := ImagePools(w0, img, TestPools, platform).world.machineConfigs;
    var keys := RegistriesKeys(img, TestPools);
    assert keys == {RegistriesKey(Master, img), RegistriesKey(Worker, img)};
    forall k | k in m ensures k in keys {
      assert k !in m - keys;
    }
  }

  /** TestImageConfigCreate: both pools, whatever their labels, get a get and a create
      of their registries machine config, master first; the trace passes validation. */
  lemma ImageConfigCreate(uid: string, platform: string, policy: Policy)
    ensures var img := ClusterImage(uid, ["blah.io"]);
      var mcs1 := NewMachineConfig(RegistriesKey(Master, img), "master");
      var mcs2 := NewMachineConfig(RegistriesKey(Worker, img), "worker");
      var (ri, rt) := Run(map[], map[], map[], map[ClusterImageName := img], TestPools, platform, policy, ClusterImageName);
      var expected := ImageExpectations(mcs1, ExpectCreateMachineConfig(mcs1), mcs2, ExpectCreateMachineConfig(mcs2));
      && ri.err == None && rt.err == None
      && SameShapes(Filtered(rt.world.actions), expected)
      && Validates(true, expected, Filtered(rt.world.actions))
      && rt.world.machineConfigs.Keys == {mcs1.name, mcs2.name}
  {
    var img := ClusterImage(uid, ["blah.io"]);
    var mcs1 := NewMachineConfig(RegistriesKey(Master, img), "master");
    var mcs2 := NewMachineConfig(RegistriesKey(Worker, img), "worker");
    ImageCreateRun(uid, platform, policy);
    ImageCreateTrace(uid, platform);
    var t := CreateFanOut(img, TestPools, platform);
    ImageFanOutMatches(t, img, mcs1, ExpectCreateMachineConfig(mcs1), mcs2, ExpectCreateMachineConfig(mcs2));
  }

  /** The Image update scenario's run: exactly the update fan-out over the placeholders. */
  lemma ImageUpdateTrace(uid: string, platform: string)
    ensures var img := ClusterImage(uid, ["blah.io"]);
      var mcs1 := NewMachineConfig(RegistriesKey(Master, img), "master");
      var mcs2 := NewMachineConfig(RegistriesKey(Worker, img), "worker");
      var w0 := World(map[mcs1.name := mcs1, mcs2.name := mcs2], map[], []);
      var r := SyncImage(w0, map[ClusterImageName := img], TestPools, "", platform);
      && r.err == None
      && r.world.actions == UpdateFanOut(w0.machineConfigs, img, TestPools, platform)
  {
    var img := ClusterImage(uid, ["blah.io"]);
    var mcs1 := NewMachineConfig(RegistriesKey(Master, img), "master");
    var mcs2 := NewMachineConfig(RegistriesKey(Worker, img), "worker");
    var w0 := World(map[mcs1.name := mcs1, mcs2.name := mcs2], map[], []);
    TestPoolsDistinct();
    ImageFanOutUpdates(w0, img, TestPools, platform);
  }

  /** TestImageConfigUpdate, second phase: the placeholder machine configs exist, and a
      sync with the empty key updates both in place, master first, with no create. */
  lemma ImageConfigUpdate(uid: string, platform: string)
    ensures var img := ClusterImage(uid, ["blah.io"]);
      var mcs1 := NewMachineConfig(RegistriesKey(Master, img), "master");
      var mcs2 := NewMachineConfig(RegistriesKey(Worker, img), "worker");
      var r := SyncImage(World(map[mcs1.name := mcs1, mcs2.name := mcs2], map[], []),
                         map[ClusterImageName := img], TestPools, "", platform);
      var expected := ImageExpectations(mcs1, ExpectUpdateMachineConfig(mcs1), mcs2, ExpectUpdateMachineConfig(mcs2));
      && r.err == None
      && SameShapes(Filtered(r.world.actions), expected)
      && Validates(true, expected, Filtered(r.world.actions))
      && (forall a :: a in r.world.actions ==> a.verb != Create)
  {
    var img := ClusterImage(uid, ["blah.io"]);
    var mcs1 := NewMachineConfig(RegistriesKey(Master, img), "master");
    var mcs2 := NewMachineConfig(RegistriesKey(Worker, img), "worker");
    var w0 := World(map[mcs1.name := mcs1, mcs2.name := mcs2], map[], []);
    ImageUpdateTrace(uid, platform);
    var t := UpdateFanOut(w0.machineConfigs, img, TestPools, platform);
    ImageFanOutMatches(t, img, mcs1, ExpectUpdateMachineConfig(mcs1), mcs2, ExpectUpdateMachineConfig(mcs2));
  }

  // ---------------------------------------------------------------------------
  // Findings

  /** The runtime key of the master pool equals the one in the expected patch exactly
      when the random UID happens to be "sx2vr". */
  lemma {:induction false} PatchTokenNeedsFixedUid(uid: string)
    ensures RuntimeKey(Master, SetLogLevel(uid, "debug")) == "99-master-sx2vr-containerruntime" <==> uid == "sx2vr"
  {
    var k := RuntimeKey(Master, SetLogLevel(uid, "debug"));
    var fixed := "99-master-sx2vr-containerruntime";
    assert fixed == "99-master-" + "sx2vr" + "-containerruntime";
    if k == fixed {
      assert |uid| == 5;
      assert k[10..15] == uid;
      assert fixed[10..15] == "sx2vr";
    }
  }

  /** In the create scenario the fifth action is the finalizer patch. The check as
      written accepts it for every UID; the corrected check accepts it only for the
      UID the fixture's bytes were taken from. */
  lemma FindingPatchNeverCompared(uid: string, platform: string, policy: Policy)
    requires FitsFixtures(policy)
    ensures var cfg := SetLogLevel(uid, "debug");
      var mcs1 := NewMachineConfig(RuntimeKey(Master, cfg), "master");
      var (_, rt) := Run(map[], map[cfg.name := cfg], map[cfg.name := cfg], map[], TestPools, platform, policy, GetKey(cfg));
      var expected := RuntimeExpectations(cfg, mcs1, ExpectCreateMachineConfig(mcs1));
      var actual := Filtered(rt.world.actions);
      && |actual| == 6
      && CheckActionAsWritten(expected[4], actual[4]) == Pass
      && (CheckAction(expected[4], actual[4]) == Pass <==> uid == "sx2vr")
  {
    CreateScenarioActions(uid, platform, policy);
    PatchTokenNeedsFixedUid(uid);
  }

  /** The create scenario's filtered trace is the reference trace of the master pool,
      whose fifth action patches in the master pool's own key. */
  lemma CreateScenarioActions(uid: string, platform: string, policy: Policy)
    requires FitsFixtures(policy)
    ensures var cfg := SetLogLevel(uid, "debug");
      var w0 := World(map[], map[cfg.name := cfg], []);
      var t := RuntimeStepTrace(w0, cfg, Master, platform);
      && Filtered(Run(map[], map[cfg.name := cfg], map[cfg.name := cfg], map[], TestPools, platform, policy, GetKey(cfg)).1.world.actions) == t
      && |t| == 6
      && t[4] == RootPatch(ContainerRuntimeConfigs, cfg.name, AddFinalizers([RuntimeKey(Master, cfg)]))
  {
    var cfg := SetLogLevel(uid, "debug");
    var key := RuntimeKey(Master, cfg);
    var w0 := World(map[], map[cfg.name := cfg], []);
    CreateScenarioRun(uid, platform, policy);
    CreateScenarioStep(uid, platform);
    var mcs1 := NewMachineConfig(key, "master");
    RuntimeStepMatches(w0, cfg, Master, platform, cfg, mcs1, ExpectCreateMachineConfig(mcs1));
    StepTracePatch(w0, cfg, Master, platform);
  }

  /** The fifth action of a one-pool trace with a single machine-config write is the finalizer patch. */
  lemma StepTracePatch(w: World, cfg: RuntimeConfig, pool: Pool, platform: string)
    requires RuntimeKey(pool, cfg) !in cfg.finalizers
    requires |MachineConfigWrite(w, RuntimeKey(pool, cfg), RenderRuntime(pool, cfg, platform))| == 1
    ensures var t := RuntimeStepTrace(w, cfg, pool, platform);
      |t| == 6 && t[4] == RootPatch(ContainerRuntimeConfigs, cfg.name, AddFinalizers([RuntimeKey(pool, cfg)]))
  {
  }

  /** In the Image update scenario the second action updates the master pool's machine
      config with rendered content, while the fixture expects the placeholder. The check
      as written accepts the trace; the corrected check rejects that action for its object. */
  lemma FindingUpdateObjectNeverCompared(uid: string, platform: string)
    ensures var img := ClusterImage(uid, ["blah.io"]);
      var mcs1 := NewMachineConfig(RegistriesKey(Master, img), "master");
      var mcs2 := NewMachineConfig(RegistriesKey(Worker, img), "worker");
      var r := SyncImage(World(map[mcs1.name := mcs1, mcs2.name := mcs2], map[], []),
                         map[ClusterImageName := img], TestPools, "", platform);
      var expected := ImageExpectations(mcs1, ExpectUpdateMachineConfig(mcs1), mcs2, ExpectUpdateMachineConfig(mcs2));
      var actual := Filtered(r.world.actions);
      && Validates(true, expected, actual)
      && |actual| == 4
      && CheckAction(expected[1], actual[1]) == Fail(WrongObject)
      && !Validates(false, expected, actual)
  {
    var img := ClusterImage(uid, ["blah.io"]);
    var mcs1 := NewMachineConfig(RegistriesKey(Master, img), "master");
    var mcs2 := NewMachineConfig(RegistriesKey(Worker, img), "worker");
    var w0 := World(map[mcs1.name := mcs1, mcs2.name := mcs2], map[], []);
    ImageUpdateTrace(uid, platform);
    var t := UpdateFanOut(w0.machineConfigs, img, TestPools, platform);
    ImageFanOutMatches(t, img, mcs1, ExpectUpdateMachineConfig(mcs1), mcs2, ExpectUpdateMachineConfig(mcs2));
    MasterUpdateCarriesRendering(uid, platform);
  }

  /** The master pool's update in the Image fan-out carries rendered content, not the placeholder. */
  lemma MasterUpdateCarriesRendering(uid: string, platform: string)
    ensures var img := ClusterImage(uid, ["blah.io"]);
      var mcs1 := NewMachineConfig(RegistriesKey(Master, img), "master");
      var mcs2 := NewMachineConfig(RegistriesKey(Worker, img), "worker");
      var stored := map[mcs1.name := mcs1, mcs2.name := mcs2];
      RegistriesKey(Master, img) in stored && RegistriesKey(Worker, img) in stored &&
      var t := UpdateFanOut(stored, img, TestPools, platform);
      CheckAction(ExpectUpdateMachineConfig(mcs1), t[1]) == Fail(WrongObject)
  {
    var img := ClusterImage(uid, ["blah.io"]);
    var mcs1 := NewMachineConfig(RegistriesKey(Master, img), "master");
    var mcs2 := NewMachineConfig(RegistriesKey(Worker, img), "worker");
    var stored := map[mcs1.name := mcs1, mcs2.name := mcs2];
    var t := UpdateFanOut(stored, img, TestPools, platform);
    assert TestPools[0] == Master;
    TestPoolsDistinct();
    assert RegistriesKey(Master, img) != RegistriesKey(Worker, img) by {
      if RegistriesKey(Master, img) == RegistriesKey(Worker, img) {
        RegistriesKeyInjective(Master, Worker, img);
      }
    }
    assert stored[RegistriesKey(Master, img)] == mcs1;
    assert t[1] == RootUpdate(MachineConfigs, MachineConfigObject(mcs1.(content := RenderRegistries(Master, img, platform).content)));
  }
}
