/** What the two sync handlers promise: the exact action trace of one pool, which
    machine configs a sync leaves behind, that a second sync writes no machine
    config, the fan-out of the Image config, and independence from the platform. */
module Properties {
  import opened Model
  import opened Actions
  import opened Client
  import opened Validation
  import opened Controller

  // ---------------------------------------------------------------------------
  // Reference traces

  /** The machine-config write a pool needs: a create when the key is absent, an
      update carrying the rendered content when the stored content differs, none otherwise. */
  function MachineConfigWrite(w: World, key: string, desired: MachineConfig): seq<Action> {
    if key !in w.machineConfigs then [RootCreate(MachineConfigs, MachineConfigObject(desired))]
    else if w.machineConfigs[key].content == desired.content then []
    else [RootUpdate(MachineConfigs, MachineConfigObject(w.machineConfigs[key].(content := desired.content)))]
  }

  function StatusWrite(cfg: RuntimeConfig): Action {
    RootUpdateSubresource(ContainerRuntimeConfigs, StatusSubresource, RuntimeConfigObject(cfg))
  }

  /** The actions one pool of a ContainerRuntimeConfig sync records: get, status,
      status, the machine-config write, the finalizer patch unless the cached
      object already carries the token, and the final status. */
  function RuntimeStepTrace(w: World, cfg: RuntimeConfig, pool: Pool, platform: string): seq<Action> {
    var key := RuntimeKey(pool, cfg);
    [RootGet(MachineConfigs, key), StatusWrite(cfg), StatusWrite(cfg)]
    + MachineConfigWrite(w, key, RenderRuntime(pool, cfg, platform))
    + (if key in cfg.finalizers then [] else [RootPatch(ContainerRuntimeConfigs, cfg.name, AddFinalizers([key]))])
    + [StatusWrite(Synced(cfg))]
  }

  /** No action of the trace creates or updates a machine config. */
  predicate NoMachineConfigWrites(s: seq<Action>) {
    forall a :: a in s && a.resource == MachineConfigs ==> a.verb == Get
  }

  function RuntimeKeys(cfg: RuntimeConfig, pools: seq<Pool>): set<string> {
    set p | p in pools :: RuntimeKey(p, cfg)
  }

  function RegistriesKeys(img: ImageConfig, pools: seq<Pool>): set<string> {
    set p | p in pools :: RegistriesKey(p, img)
  }

  // ---------------------------------------------------------------------------
  // Frames

  /** An entry outside the keys a later write touched keeps its value. */
  lemma KeptOutside(m1: map<string, MachineConfig>, m2: map<string, MachineConfig>, touched: set<string>, k: string)
    requires m2 - touched == m1 - touched
    requires k !in touched && k in m1
    ensures k in m2 && m2[k] == m1[k]
  {
    assert k in m1 - touched;
  }

  /** A write confined to `key` followed by writes confined to `later` is confined to both. */
  lemma FrameCompose(m0: map<string, MachineConfig>, m1: map<string, MachineConfig>, m2: map<string, MachineConfig>,
                     key: string, later: set<string>)
    requires m1 - {key} == m0 - {key}
    requires m2 - later == m1 - later
    ensures m2 - (later + {key}) == m0 - (later + {key})
  {
    var all := later + {key};
    forall k | k !in all
      ensures (k in m2 <==> k in m0) && (k in m2 ==> m2[k] == m0[k])
    {
      assert k in m2 - later <==> k in m1 - later;
      assert k in m1 - {key} <==> k in m0 - {key};
      if k in m2 {
        assert (m2 - later)[k] == (m1 - later)[k];
        assert (m1 - {key})[k] == (m0 - {key})[k];
      }
    }
  }

  /** Appending to an extension of a log still extends the log. */
  lemma PrefixCompose(a: seq<Action>, b: seq<Action>, c: seq<Action>)
    requires |a| <= |b| && b[..|a|] == a
    requires |b| <= |c| && c[..|b|] == b
    ensures |a| <= |c| && c[..|a|] == a
  {
    assert c[..|a|] == c[..|b|][..|a|];
  }

  // ---------------------------------------------------------------------------
  // ContainerRuntimeConfig: one pool

  /** Diff and apply on a well-keyed store, after a get under the desired name: no
      error, exactly the needed write is recorded, and only that name changes, to
      the stored object with the rendered content (or the rendered object itself). */
  lemma ApplyEffect(w: World, key: string, desired: MachineConfig)
    requires WellKeyed(w) && desired.name == key
    ensures var r := ApplyCall(w, Lookup(w, key), desired);
      && r.err == None
      && WellKeyed(r.world)
      && r.world.actions == w.actions + MachineConfigWrite(w, key, desired)
      && key in r.world.machineConfigs
      && r.world.machineConfigs[key].content == desired.content
      && (key in w.machineConfigs ==> r.world.machineConfigs[key] == w.machineConfigs[key].(content := desired.content))
      && r.world.machineConfigs - {key} == w.machineConfigs - {key}
      && (MachineConfigWrite(w, key, desired) == [] ==> r.world.machineConfigs == w.machineConfigs)
      && r.world.runtimeConfigs == w.runtimeConfigs
  {
  }

  /** The end of a pool step: the finalizer patch when the cached object lacks the
      token, then the final status; machine configs are not touched. */
  lemma FinishEffect(w: World, cfg: RuntimeConfig, key: string)
    requires cfg.name in w.runtimeConfigs
    ensures var r5 := if key in cfg.finalizers then Reply(w, None) else PatchFinalizerCall(w, cfg.name, key);
      var r6 := UpdateStatusCall(r5.world, Synced(cfg));
      && r5.err == None && r6.err == None
      && r6.world.machineConfigs == w.machineConfigs
      && r6.world.actions == w.actions
           + (if key in cfg.finalizers then [] else [RootPatch(ContainerRuntimeConfigs, cfg.name, AddFinalizers([key]))])
           + [StatusWrite(Synced(cfg))]
      && r6.world.runtimeConfigs.Keys == w.runtimeConfigs.Keys
      && r6.world.runtimeConfigs[cfg.name].status == Status(cfg.generation, Succeeded)
      && (key !in cfg.finalizers ==> key in r6.world.runtimeConfigs[cfg.name].finalizers)
  {
  }

  /** One pool step, when the config object exists: it succeeds, keeps every machine
      config under its own name, and records exactly the reference trace. */
  lemma RuntimePoolStepEffect(w: World, cfg: RuntimeConfig, pool: Pool, platform: string)
    requires WellKeyed(w) && cfg.name in w.runtimeConfigs
    ensures var r := RuntimePoolStep(w, cfg, pool, platform);
      && r.err == None
      && WellKeyed(r.world)
      && r.world.actions == w.actions + RuntimeStepTrace(w, cfg, pool, platform)
  {
    var key := RuntimeKey(pool, cfg);
    var desired := RenderRuntime(pool, cfg, platform);
    var (w1, existing) := GetMachineConfigCall(w, key);
    var r2 := UpdateStatusCall(w1, cfg);
    var r3 := UpdateStatusCall(r2.world, cfg);
    assert r3.err == None && r3.world.machineConfigs == w.machineConfigs;
    assert r3.world.actions == w.actions + [RootGet(MachineConfigs, key), StatusWrite(cfg), StatusWrite(cfg)];
    assert existing == Lookup(r3.world, key);
    ApplyEffect(r3.world, key, desired);
    assert MachineConfigWrite(r3.world, key, desired) == MachineConfigWrite(w, key, desired);
    var r4 := ApplyCall(r3.world, existing, desired);
    FinishEffect(r4.world, cfg, key);
    var r5 := if key in cfg.finalizers then r4 else PatchFinalizerCall(r4.world, cfg.name, key);
    var r := UpdateStatusCall(r5.world, Synced(cfg));
    assert RuntimePoolStep(w, cfg, pool, platform) == r;
    var p := if key in cfg.finalizers then [] else [RootPatch(ContainerRuntimeConfigs, cfg.name, AddFinalizers([key]))];
    AppendFour(w.actions, [RootGet(MachineConfigs, key), StatusWrite(cfg), StatusWrite(cfg)],
               MachineConfigWrite(w, key, desired), p, [StatusWrite(Synced(cfg))]);
  }

  /** Appending four pieces to a log one by one appends their concatenation. */
  lemma AppendFour(a: seq<Action>, b: seq<Action>, c: seq<Action>, d: seq<Action>, e: seq<Action>)
    ensures a + b + c + d + e == a + (b + c + d + e)
  {
  }

  /** One pool step, when the config object exists, leaves the rendered content under
      the pool's key (on the stored object, when there was one) and every other machine
      config as it was; with nothing to write, the store does not change at all. */
  lemma RuntimePoolStepStore(w: World, cfg: RuntimeConfig, pool: Pool, platform: string)
    requires WellKeyed(w) && cfg.name in w.runtimeConfigs
    ensures var r := RuntimePoolStep(w, cfg, pool, platform);
      var key := RuntimeKey(pool, cfg);
      && key in r.world.machineConfigs
      && r.world.machineConfigs[key].content == RuntimeContent(cfg.spec)
      && (key in w.machineConfigs ==>
            r.world.machineConfigs[key] == w.machineConfigs[key].(content := RuntimeContent(cfg.spec)))
      && r.world.machineConfigs - {key} == w.machineConfigs - {key}
      && (MachineConfigWrite(w, key, RenderRuntime(pool, cfg, platform)) == [] ==>
            r.world.machineConfigs == w.machineConfigs)
  {
    var key := RuntimeKey(pool, cfg);
    var desired := RenderRuntime(pool, cfg, platform);
    var (w1, existing) := GetMachineConfigCall(w, key);
    var r2 := UpdateStatusCall(w1, cfg);
    var r3 := UpdateStatusCall(r2.world, cfg);
    assert r3.err == None && r3.world.machineConfigs == w.machineConfigs;
    assert existing == Lookup(r3.world, key);
    ApplyEffect(r3.world, key, desired);
    assert MachineConfigWrite(r3.world, key, desired) == MachineConfigWrite(w, key, desired);
    var r4 := ApplyCall(r3.world, existing, desired);
    FinishEffect(r4.world, cfg, key);
  }

  /** One pool step, when the config object exists, records success at the object's
      generation in the stored status and leaves the finalizer on the stored object. */
  lemma RuntimePoolStepStatus(w: World, cfg: RuntimeConfig, pool: Pool, platform: string)
    requires WellKeyed(w) && cfg.name in w.runtimeConfigs
    ensures var r := RuntimePoolStep(w, cfg, pool, platform);
      var key := RuntimeKey(pool, cfg);
      && r.world.runtimeConfigs.Keys == w.runtimeConfigs.Keys
      && r.world.runtimeConfigs[cfg.name].status == Status(cfg.generation, Succeeded)
      && (key !in cfg.finalizers ==> key in r.world.runtimeConfigs[cfg.name].finalizers)
  {
    var key := RuntimeKey(pool, cfg);
    var desired := RenderRuntime(pool, cfg, platform);
    var (w1, existing) := GetMachineConfigCall(w, key);
    var r2 := UpdateStatusCall(w1, cfg);
    var r3 := UpdateStatusCall(r2.world, cfg);
    assert r3.err == None && r3.world.runtimeConfigs.Keys == w.runtimeConfigs.Keys;
    assert existing == Lookup(r3.world, key);
    ApplyEffect(r3.world, key, desired);
    var r4 := ApplyCall(r3.world, existing, desired);
    FinishEffect(r4.world, cfg, key);
  }

  // ---------------------------------------------------------------------------
  // ContainerRuntimeConfig: all selected pools

  /** Syncing a list of pools, when the config object exists: no error, every pool's
      key holds the rendered content, and no machine config outside those keys changes. */
  lemma {:induction false} RuntimePoolsEffect(w: World, cfg: RuntimeConfig, pools: seq<Pool>, platform: string)
    requires WellKeyed(w) && cfg.name in w.runtimeConfigs
    ensures var r := RuntimePools(w, cfg, pools, platform);
      && r.err == None
      && WellKeyed(r.world)
      && r.world.runtimeConfigs.Keys == w.runtimeConfigs.Keys
      && |w.actions| <= |r.world.actions| && r.world.actions[..|w.actions|] == w.actions
      && (forall p :: p in pools ==>
            RuntimeKey(p, cfg) in r.world.machineConfigs &&
            r.world.machineConfigs[RuntimeKey(p, cfg)].content == RuntimeContent(cfg.spec))
      && r.world.machineConfigs - RuntimeKeys(cfg, pools) == w.machineConfigs - RuntimeKeys(cfg, pools)
    decreases |pools|
  {
    if pools != [] {
      var key := RuntimeKey(pools[0], cfg);
      RuntimePoolStepEffect(w, cfg, pools[0], platform);
      RuntimePoolStepStore(w, cfg, pools[0], platform);
      RuntimePoolStepStatus(w, cfg, pools[0], platform);
      var w1 := RuntimePoolStep(w, cfg, pools[0], platform).world;
      var rest := pools[1..];
      RuntimePoolsEffect(w1, cfg, rest, platform);
      var r := RuntimePools(w1, cfg, rest, platform);
      assert RuntimePools(w, cfg, pools, platform) == r;
      var all := RuntimeKeys(cfg, pools);
      var later := RuntimeKeys(cfg, rest);
      assert all == later + {key} by {
        assert forall p :: p in pools <==> p == pools[0] || p in rest;
      }
      forall p | p in pools
        ensures RuntimeKey(p, cfg) in r.world.machineConfigs &&
                r.world.machineConfigs[RuntimeKey(p, cfg)].content == RuntimeContent(cfg.spec)
      {
        var k := RuntimeKey(p, cfg);
        if k !in later {
          assert k == key;
          KeptOutside(w1.machineConfigs, r.world.machineConfigs, later, k);
        } else {
          var q :| q in rest && RuntimeKey(q, cfg) == k;
        }
      }
      FrameCompose(w.machineConfigs, w1.machineConfigs, r.world.machineConfigs, key, later);
      PrefixCompose(w.actions, w1.actions, r.world.actions);
    }
  }

  /** A ContainerRuntimeConfig sync reaches exactly the pools its selector matches:
      each matching pool ends up with the rendered machine config, and the machine
      config a non-matching pool would own is left as it was. */
  lemma SyncRuntimeSelectsPools(w: World, cache: map<string, RuntimeConfig>, pools: seq<Pool>, key: string,
                                policy: Policy, platform: string)
    requires key in cache && Accepts(policy, cache[key].spec)
    requires WellKeyed(w) && cache[key].name in w.runtimeConfigs
    requires DistinctNames(pools)
    ensures var cfg := cache[key];
      var r := SyncRuntime(w, cache, pools, key, policy, platform);
      && r.err == None
      && (forall p :: p in pools && Selects(cfg.poolSelector, p.labels) ==>
            RuntimeKey(p, cfg) in r.world.machineConfigs &&
            r.world.machineConfigs[RuntimeKey(p, cfg)].content == RuntimeContent(cfg.spec))
      && (forall p :: p in pools && !Selects(cfg.poolSelector, p.labels) ==>
            (RuntimeKey(p, cfg) in r.world.machineConfigs <==> RuntimeKey(p, cfg) in w.machineConfigs) &&
            (RuntimeKey(p, cfg) in w.machineConfigs ==>
               r.world.machineConfigs[RuntimeKey(p, cfg)] == w.machineConfigs[RuntimeKey(p, cfg)]))
  {
    var cfg := cache[key];
    var targets := SelectPools(cfg.poolSelector, pools);
    RuntimePoolsEffect(w, cfg, targets, platform);
    var r := RuntimePools(w, cfg, targets, platform);
    var keys := RuntimeKeys(cfg, targets);
    forall p | p in pools && !Selects(cfg.poolSelector, p.labels)
      ensures RuntimeKey(p, cfg) !in keys
    {
      forall q | q in targets ensures RuntimeKey(q, cfg) != RuntimeKey(p, cfg) {
        if RuntimeKey(q, cfg) == RuntimeKey(p, cfg) {
          RuntimeKeyInjective(p, q, cfg);
        }
      }
    }
    forall p | p in pools && !Selects(cfg.poolSelector, p.labels)
      ensures (RuntimeKey(p, cfg) in r.world.machineConfigs <==> RuntimeKey(p, cfg) in w.machineConfigs)
      ensures RuntimeKey(p, cfg) in w.machineConfigs ==>
                r.world.machineConfigs[RuntimeKey(p, cfg)] == w.machineConfigs[RuntimeKey(p, cfg)]
    {
      var k := RuntimeKey(p, cfg);
      assert k in r.world.machineConfigs - keys <==> k in w.machineConfigs - keys;
      if k in w.machineConfigs {
        assert (r.world.machineConfigs - keys)[k] == (w.machineConfigs - keys)[k];
      }
    }
  }

  /** Pools whose machine configs already hold the rendered content get no machine-config
      write, and the machine configs stay exactly as they are. */
  lemma {:induction false} RuntimePoolsSettled(w: World, cfg: RuntimeConfig, pools: seq<Pool>, platform: string)
    requires WellKeyed(w) && cfg.name in w.runtimeConfigs
    requires forall p :: p in pools ==>
      RuntimeKey(p, cfg) in w.machineConfigs &&
      w.machineConfigs[RuntimeKey(p, cfg)].content == RuntimeContent(cfg.spec)
    ensures var r := RuntimePools(w, cfg, pools, platform);
      && r.err == None
      && r.world.machineConfigs == w.machineConfigs
      && |w.actions| <= |r.world.actions|
      && NoMachineConfigWrites(r.world.actions[|w.actions|..])
    decreases |pools|
  {
    if pools != [] {
      RuntimePoolStepEffect(w, cfg, pools[0], platform);
      RuntimePoolStepStore(w, cfg, pools[0], platform);
      RuntimePoolStepStatus(w, cfg, pools[0], platform);
      var w1 := RuntimePoolStep(w, cfg, pools[0], platform).world;
      var step := RuntimeStepTrace(w, cfg, pools[0], platform);
      assert MachineConfigWrite(w, RuntimeKey(pools[0], cfg), RenderRuntime(pools[0], cfg, platform)) == [];
      assert NoMachineConfigWrites(step);
      RuntimePoolsSettled(w1, cfg, pools[1..], platform);
      RuntimePoolsEffect(w1, cfg, pools[1..], platform);
      var r := RuntimePools(w1, cfg, pools[1..], platform);
      SuffixCompose(w.actions, step, r.world.actions);
      NoWritesConcat(step, r.world.actions[|w1.actions|..]);
    }
  }

  lemma NoWritesConcat(s: seq<Action>, t: seq<Action>)
    requires NoMachineConfigWrites(s) && NoMachineConfigWrites(t)
    ensures NoMachineConfigWrites(s + t)
  {
  }

  /** Level-triggered reconciliation: running syncHandler a second time with the same
      caches writes no machine config and leaves every machine config as the first run left it. */
  lemma SyncRuntimeIdempotent(w: World, cache: map<string, RuntimeConfig>, pools: seq<Pool>, key: string,
                              policy: Policy, platform: string)
    requires WellKeyed(w)
    requires key in cache ==> cache[key].name in w.runtimeConfigs
    ensures var r1 := SyncRuntime(w, cache, pools, key, policy, platform);
      var r2 := SyncRuntime(r1.world, cache, pools, key, policy, platform);
      && r1.err == None && r2.err == None
      && r2.world.machineConfigs == r1.world.machineConfigs
      && |r1.world.actions| <= |r2.world.actions|
      && NoMachineConfigWrites(r2.world.actions[|r1.world.actions|..])
  {
    var r1 := SyncRuntime(w, cache, pools, key, policy, platform);
    if key in cache {
      var cfg := cache[key];
      if FirstViolation(policy, cfg.spec).None? {
        var targets := SelectPools(cfg.poolSelector, pools);
        RuntimePoolsEffect(w, cfg, targets, platform);
        RuntimePoolsSettled(r1.world, cfg, targets, platform);
      } else {
        var r2 := SyncRuntime(r1.world, cache, pools, key, policy, platform);
        assert r2.world.actions[|r1.world.actions|..] == [StatusWrite(Rejected(cfg, FirstViolation(policy, cfg.spec).value))];
      }
    }
  }

  // ---------------------------------------------------------------------------
  // Image config

  /** One pool of the Image sync: the get, then the machine-config write it needs;
      only the pool's own key changes, and it ends up holding the rendered content. */
  lemma ImagePoolStepEffect(w: World, img: ImageConfig, pool: Pool, platform: string)
    requires WellKeyed(w)
    ensures var r := ImagePoolStep(w, img, pool, platform);
      var key := RegistriesKey(pool, img);
      var desired := RenderRegistries(pool, img, platform);
      && r.err == None
      && WellKeyed(r.world)
      && r.world.actions == w.actions + [RootGet(MachineConfigs, key)] + MachineConfigWrite(w, key, desired)
      && key in r.world.machineConfigs
      && r.world.machineConfigs[key].content == desired.content
      && r.world.machineConfigs - {key} == w.machineConfigs - {key}
      && (MachineConfigWrite(w, key, desired) == [] ==> r.world.machineConfigs == w.machineConfigs)
      && r.world.runtimeConfigs == w.runtimeConfigs
  {
  }

  /** What a first sync of the Image config records: per pool, in list order, a get of
      its key and a create of its rendered machine config. */
  function CreateFanOut(img: ImageConfig, pools: seq<Pool>, platform: string): (r: seq<Action>)
    ensures |r| == 2 * |pools|
    ensures forall i :: 0 <= i < |pools| ==>
      r[2 * i] == RootGet(MachineConfigs, RegistriesKey(pools[i], img)) &&
      r[2 * i + 1] == RootCreate(MachineConfigs, MachineConfigObject(RenderRegistries(pools[i], img, platform)))
    decreases |pools|
  {
    if pools == [] then []
    else
      var head := [RootGet(MachineConfigs, RegistriesKey(pools[0], img)),
                   RootCreate(MachineConfigs, MachineConfigObject(RenderRegistries(pools[0], img, platform)))];
      var tail := CreateFanOut(img, pools[1..], platform);
      assert forall i :: 1 <= i < |pools| ==> pools[1..][i - 1] == pools[i];
      head + tail
  }

  /** What a later sync records over stored machine configs with other content: per
      pool, in list order, a get and an update of the stored object carrying the rendered content. */
  function UpdateFanOut(stored: map<string, MachineConfig>, img: ImageConfig, pools: seq<Pool>, platform: string): (r: seq<Action>)
    requires forall p :: p in pools ==> RegistriesKey(p, img) in stored
    ensures |r| == 2 * |pools|
    ensures forall i :: 0 <= i < |pools| ==>
      r[2 * i] == RootGet(MachineConfigs, RegistriesKey(pools[i], img)) &&
      r[2 * i + 1] == RootUpdate(MachineConfigs, MachineConfigObject(
        stored[RegistriesKey(pools[i], img)].(content := RenderRegistries(pools[i], img, platform).content)))
    ensures forall a :: a in r ==> a.verb != Create
    decreases |pools|
  {
    if pools == [] then []
    else
      var key := RegistriesKey(pools[0], img);
      var head := [RootGet(MachineConfigs, key),
                   RootUpdate(MachineConfigs, MachineConfigObject(
                     stored[key].(content := RenderRegistries(pools[0], img, platform).content)))];
      var tail := UpdateFanOut(stored, img, pools[1..], platform);
      assert forall i :: 1 <= i < |pools| ==> pools[1..][i - 1] == pools[i];
      head + tail
  }

  /** The update fan-out depends only on the stored objects under the pools' keys. */
  lemma {:induction false} UpdateFanOutFrame(m1: map<string, MachineConfig>, m2: map<string, MachineConfig>,
                                             img: ImageConfig, pools: seq<Pool>, platform: string)
    requires forall p :: p in pools ==> RegistriesKey(p, img) in m1 && RegistriesKey(p, img) in m2 &&
                                        m1[RegistriesKey(p, img)] == m2[RegistriesKey(p, img)]
    ensures UpdateFanOut(m1, img, pools, platform) == UpdateFanOut(m2, img, pools, platform)
    decreases |pools|
  {
    if pools != [] {
      UpdateFanOutFrame(m1, m2, img, pools[1..], platform);
    }
  }

  /** The log after a step and then more calls, split at the step. */
  lemma SuffixCompose(a: seq<Action>, step: seq<Action>, c: seq<Action>)
    requires |a| + |step| <= |c| && c[..|a| + |step|] == a + step
    ensures |a| <= |c| && c[..|a|] == a
    ensures c[|a|..] == step + c[|a| + |step|..]
  {
    assert c[..|a|] == c[..|a| + |step|][..|a|];
    assert c[|a|..] == c[|a|..|a| + |step|] + c[|a| + |step|..];
  }

  /** First sync of the Image config over pools that have no registries machine config
      yet: it records exactly the create fan-out and nothing else. */
  lemma {:induction false} ImageFanOutCreates(w: World, img: ImageConfig, pools: seq<Pool>, platform: string)
    requires WellKeyed(w) && DistinctNames(pools)
    requires forall p :: p in pools ==> RegistriesKey(p, img) !in w.machineConfigs
    ensures var r := ImagePools(w, img, pools, platform);
      && r.err == None
      && |w.actions| <= |r.world.actions|
      && r.world.actions[|w.actions|..] == CreateFanOut(img, pools, platform)
    decreases |pools|
  {
    if pools != [] {
      var key := RegistriesKey(pools[0], img);
      ImagePoolStepEffect(w, img, pools[0], platform);
      var w1 := ImagePoolStep(w, img, pools[0], platform).world;
      var rest := pools[1..];
      forall p | p in rest ensures RegistriesKey(p, img) !in w1.machineConfigs {
        if RegistriesKey(p, img) == key {
          RegistriesKeyInjective(p, pools[0], img);
        }
      }
      ImageFanOutCreates(w1, img, rest, platform);
      var r := ImagePools(w1, img, rest, platform);
      assert ImagePools(w, img, pools, platform) == r;
      var step := [RootGet(MachineConfigs, key), RootCreate(MachineConfigs, MachineConfigObject(RenderRegistries(pools[0], img, platform)))];
      assert w1.actions == w.actions + step;
      ImagePoolsEffect(w1, img, rest, platform);
      SuffixCompose(w.actions, step, r.world.actions);
    }
  }

  /** A later sync of the Image config over pools whose registries machine configs exist
      with other content: it records exactly the update fan-out, so no create at all. */
  lemma {:induction false} ImageFanOutUpdates(w: World, img: ImageConfig, pools: seq<Pool>, platform: string)
    requires WellKeyed(w) && DistinctNames(pools)
    requires forall p :: p in pools ==>
      RegistriesKey(p, img) in w.machineConfigs &&
      w.machineConfigs[RegistriesKey(p, img)].content != RenderRegistries(p, img, platform).content
    ensures var r := ImagePools(w, img, pools, platform);
      && r.err == None
      && |w.actions| <= |r.world.actions|
      && r.world.actions[|w.actions|..] == UpdateFanOut(w.machineConfigs, img, pools, platform)
    decreases |pools|
  {
    if pools != [] {
      var key := RegistriesKey(pools[0], img);
      ImagePoolStepEffect(w, img, pools[0], platform);
      var w1 := ImagePoolStep(w, img, pools[0], platform).world;
      var rest := pools[1..];
      forall p | p in rest
        ensures RegistriesKey(p, img) in w1.machineConfigs
        ensures w1.machineConfigs[RegistriesKey(p, img)] == w.machineConfigs[RegistriesKey(p, img)]
      {
        var k := RegistriesKey(p, img);
        if k == key {
          RegistriesKeyInjective(p, pools[0], img);
        }
        KeptOutside(w.machineConfigs, w1.machineConfigs, {key}, k);
      }
      ImageFanOutUpdates(w1, img, rest, platform);
      var r := ImagePools(w1, img, rest, platform);
      assert ImagePools(w, img, pools, platform) == r;
      var step := [RootGet(MachineConfigs, key), RootUpdate(MachineConfigs, MachineConfigObject(
                    w.machineConfigs[key].(content := RenderRegistries(pools[0], img, platform).content)))];
      assert w1.actions == w.actions + step;
      ImagePoolsEffect(w1, img, rest, platform);
      SuffixCompose(w.actions, step, r.world.actions);
      UpdateFanOutFrame(w1.machineConfigs, w.machineConfigs, img, rest, platform);
    }
  }

  /** Syncing the Image config leaves every pool's key with the rendered content and
      changes no machine config outside those keys. */
  lemma {:induction false} ImagePoolsEffect(w: World, img: ImageConfig, pools: seq<Pool>, platform: string)
    requires WellKeyed(w)
    ensures var r := ImagePools(w, img, pools, platform);
      && r.err == None
      && WellKeyed(r.world)
      && r.world.runtimeConfigs == w.runtimeConfigs
      && |w.actions| <= |r.world.actions| && r.world.actions[..|w.actions|] == w.actions
      && (forall p :: p in pools ==>
            RegistriesKey(p, img) in r.world.machineConfigs &&
            r.world.machineConfigs[RegistriesKey(p, img)].content == RenderRegistries(p, img, platform).content)
      && r.world.machineConfigs - RegistriesKeys(img, pools) == w.machineConfigs - RegistriesKeys(img, pools)
    decreases |pools|
  {
    if pools != [] {
      var key := RegistriesKey(pools[0], img);
      ImagePoolStepEffect(w, img, pools[0], platform);
      var w1 := ImagePoolStep(w, img, pools[0], platform).world;
      var rest := pools[1..];
      ImagePoolsEffect(w1, img, rest, platform);
      var r := ImagePools(w1, img, rest, platform);
      assert ImagePools(w, img, pools, platform) == r;
      var all := RegistriesKeys(img, pools);
      var later := RegistriesKeys(img, rest);
      assert all == later + {key} by {
        assert forall p :: p in pools <==> p == pools[0] || p in rest;
      }
      forall p | p in pools
        ensures RegistriesKey(p, img) in r.world.machineConfigs &&
                r.world.machineConfigs[RegistriesKey(p, img)].content == RenderRegistries(p, img, platform).content
      {
        var k := RegistriesKey(p, img);
        if k !in later {
          assert k == key;
          RegistriesKeyInjective(p, pools[0], img);
          KeptOutside(w1.machineConfigs, r.world.machineConfigs, later, k);
        } else {
          var q :| q in rest && RegistriesKey(q, img) == k;
          RegistriesKeyInjective(p, q, img);
        }
      }
      FrameCompose(w.machineConfigs, w1.machineConfigs, r.world.machineConfigs, key, later);
      PrefixCompose(w.actions, w1.actions, r.world.actions);
    }
  }

  /** Pools whose registries machine configs already hold the rendered content get
      only gets, and the machine configs stay exactly as they are. */
  lemma {:induction false} ImagePoolsSettled(w: World, img: ImageConfig, pools: seq<Pool>, platform: string)
    requires WellKeyed(w)
    requires forall p :: p in pools ==>
      RegistriesKey(p, img) in w.machineConfigs &&
      w.machineConfigs[RegistriesKey(p, img)].content == RenderRegistries(p, img, platform).content
    ensures var r := ImagePools(w, img, pools, platform);
      && r.err == None
      && r.world.machineConfigs == w.machineConfigs
      && |w.actions| <= |r.world.actions|
      && r.world.actions[..|w.actions|] == w.actions
      && NoMachineConfigWrites(r.world.actions[|w.actions|..])
    decreases |pools|
  {
    if pools != [] {
      ImagePoolStepEffect(w, img, pools[0], platform);
      var w1 := ImagePoolStep(w, img, pools[0], platform).world;
      var step := [RootGet(MachineConfigs, RegistriesKey(pools[0], img))];
      assert w1.actions == w.actions + step;
      ImagePoolsSettled(w1, img, pools[1..], platform);
      var r := ImagePools(w1, img, pools[1..], platform);
      assert r.world.actions[|w.actions|..] == step + r.world.actions[|w1.actions|..];
    }
  }

  /** Running syncImgHandler a second time writes no machine config. */
  lemma SyncImageIdempotent(w: World, cache: map<string, ImageConfig>, pools: seq<Pool>, key: string, platform: string)
    requires WellKeyed(w)
    ensures var r1 := SyncImage(w, cache, pools, key, platform);
      var r2 := SyncImage(r1.world, cache, pools, key, platform);
      && r1.err == None && r2.err == None
      && r2.world.machineConfigs == r1.world.machineConfigs
      && |r1.world.actions| <= |r2.world.actions|
      && NoMachineConfigWrites(r2.world.actions[|r1.world.actions|..])
  {
    if ClusterImageName in cache {
      var img := cache[ClusterImageName];
      ImagePoolsEffect(w, img, pools, platform);
      ImagePoolsSettled(SyncImage(w, cache, pools, key, platform).world, img, pools, platform);
    }
  }

  // ---------------------------------------------------------------------------
  // Platform independence

  lemma {:induction false} RuntimePoolsPlatformIndependent(w: World, cfg: RuntimeConfig, pools: seq<Pool>, p1: string, p2: string)
    ensures RuntimePools(w, cfg, pools, p1) == RuntimePools(w, cfg, pools, p2)
    decreases |pools|
  {
    if pools != [] {
      var r := RuntimePoolStep(w, cfg, pools[0], p1);
      assert r == RuntimePoolStep(w, cfg, pools[0], p2);
      RuntimePoolsPlatformIndependent(r.world, cfg, pools[1..], p1, p2);
    }
  }

  lemma {:induction false} ImagePoolsPlatformIndependent(w: World, img: ImageConfig, pools: seq<Pool>, p1: string, p2: string)
    ensures ImagePools(w, img, pools, p1) == ImagePools(w, img, pools, p2)
    decreases |pools|
  {
    if pools != [] {
      var r := ImagePoolStep(w, img, pools[0], p1);
      assert r == ImagePoolStep(w, img, pools[0], p2);
      ImagePoolsPlatformIndependent(r.world, img, pools[1..], p1, p2);
    }
  }

  /** The platform named in the controller config never changes what either handler
      writes, nor in what order; syncImgHandler does not look at its key either. */
  lemma HandlersPlatformIndependent(w: World, runtimeCache: map<string, RuntimeConfig>, imageCache: map<string, ImageConfig>,
                                    pools: seq<Pool>, key: string, key2: string, policy: Policy, p1: string, p2: string)
    ensures SyncRuntime(w, runtimeCache, pools, key, policy, p1) == SyncRuntime(w, runtimeCache, pools, key, policy, p2)
    ensures SyncImage(w, imageCache, pools, key, p1) == SyncImage(w, imageCache, pools, key2, p2)
  {
    if key in runtimeCache {
      var cfg := runtimeCache[key];
      RuntimePoolsPlatformIndependent(w, cfg, SelectPools(cfg.poolSelector, pools), p1, p2);
    }
    if ClusterImageName in imageCache {
      ImagePoolsPlatformIndependent(w, imageCache[ClusterImageName], pools, p1, p2);
    }
  }
}
