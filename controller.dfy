/** The two sync handlers of the container-runtime-config controller: `syncHandler`
    for ContainerRuntimeConfig intents (per pool, through a label selector) and
    `syncImgHandler` for the cluster-wide Image config (every pool). Each is given
    as a function on the client's `World` and as a method on the client object
    that is proved to do exactly what the function says. */
module Controller {
  import opened Model
  import opened Actions
  import opened Client
  import opened Validation

  /** The Image config is a singleton with this name. */
  const ClusterImageName := "cluster"

  /** The machine config a ContainerRuntimeConfig renders to in one pool. The
      platform selects a template directory; for this config every platform
      renders the same files. */
  function RenderRuntime(pool: Pool, cfg: RuntimeConfig, platform: string): MachineConfig {
    MachineConfig(RuntimeKey(pool, cfg), map[RoleLabel := pool.name], "", RuntimeContent(cfg.spec))
  }

  /** The machine config the Image config renders to in one pool. */
  function RenderRegistries(pool: Pool, img: ImageConfig, platform: string): MachineConfig {
    MachineConfig(RegistriesKey(pool, img), map[RoleLabel := pool.name],
                  "", RegistriesContent(img.insecureRegistries, img.blockedRegistries, img.allowedRegistries))
  }

  /** Diff and apply: create when absent, update the content when it differs,
      write nothing when it is already what was rendered. */
  function ApplyCall(w: World, existing: Option<MachineConfig>, desired: MachineConfig): Reply {
    match existing
    case None => CreateMachineConfigCall(w, desired)
    case Some(mc) =>
      if mc.content == desired.content then Reply(w, None)
      else UpdateMachineConfigCall(w, mc.(content := desired.content))
  }

  /** The status a successful sync records. */
  function Synced(cfg: RuntimeConfig): RuntimeConfig {
    cfg.(status := Status(cfg.generation, Succeeded))
  }

  /** The status a rejected sync records. */
  function Rejected(cfg: RuntimeConfig, rule: Rule): RuntimeConfig {
    cfg.(status := Status(cfg.status.observedGeneration, Failed(Describe(rule))))
  }

  /** One pool of a ContainerRuntimeConfig sync: get the machine config, write the
      status twice, create or update the machine config, add the finalizer when
      the cached object lacks it, and write the final status. The first error ends the step. */
  function RuntimePoolStep(w: World, cfg: RuntimeConfig, pool: Pool, platform: string): Reply {
    var key := RuntimeKey(pool, cfg);
    var (w1, existing) := GetMachineConfigCall(w, key);
    var r2 := UpdateStatusCall(w1, cfg);
    if r2.err.Some? then r2 else
    var r3 := UpdateStatusCall(r2.world, cfg);
    if r3.err.Some? then r3 else
    var r4 := ApplyCall(r3.world, existing, RenderRuntime(pool, cfg, platform));
    if r4.err.Some? then r4 else
    var r5 := if key in cfg.finalizers then r4 else PatchFinalizerCall(r4.world, cfg.name, key);
    if r5.err.Some? then r5 else
    UpdateStatusCall(r5.world, Synced(cfg))
  }

  /** The pools of a ContainerRuntimeConfig sync, in order, stopping at the first error. */
  function RuntimePools(w: World, cfg: RuntimeConfig, pools: seq<Pool>, platform: string): Reply
    decreases |pools|
  {
    if pools == [] then Reply(w, None)
    else
      var r := RuntimePoolStep(w, cfg, pools[0], platform);
      if r.err.Some? then r else RuntimePools(r.world, cfg, pools[1..], platform)
  }

  /** syncHandler: a key missing from the cache is a deleted object and a no-op;
      options that break a rule get one status write recording the first broken
      rule and the sync reports success; otherwise every pool the selector reaches is synced. */
  function SyncRuntime(w: World, cache: map<string, RuntimeConfig>, pools: seq<Pool>, key: string,
                       policy: Policy, platform: string): Reply
  {
    if key !in cache then Reply(w, None)
    else
      var cfg := cache[key];
      match FirstViolation(policy, cfg.spec)
      case Some(rule) => Reply(UpdateStatusCall(w, Rejected(cfg, rule)).world, None)
      case None => RuntimePools(w, cfg, SelectPools(cfg.poolSelector, pools), platform)
  }

  /** One pool of the Image config sync: get the machine config, then create or update it. */
  function ImagePoolStep(w: World, img: ImageConfig, pool: Pool, platform: string): Reply {
    var (w1, existing) := GetMachineConfigCall(w, RegistriesKey(pool, img));
    ApplyCall(w1, existing, RenderRegistries(pool, img, platform))
  }

  function ImagePools(w: World, img: ImageConfig, pools: seq<Pool>, platform: string): Reply
    decreases |pools|
  {
    if pools == [] then Reply(w, None)
    else
      var r := ImagePoolStep(w, img, pools[0], platform);
      if r.err.Some? then r else ImagePools(r.world, img, pools[1..], platform)
  }

  /** syncImgHandler: the key is not consulted; the singleton Image config, when
      cached, is applied to every pool in list order, whatever the pools' labels. */
  function SyncImage(w: World, cache: map<string, ImageConfig>, pools: seq<Pool>, key: string,
                     platform: string): Reply
  {
    if ClusterImageName !in cache then Reply(w, None)
    else ImagePools(w, cache[ClusterImageName], pools, platform)
  }

  /** The controller: read-only listers (the informer caches), the platform from the
      controller config, the validation bounds, and the client it writes through. */
  class Controller {
    const client: FakeClient
    const runtimeLister: map<string, RuntimeConfig>
    const imageLister: map<string, ImageConfig>
    const poolLister: seq<Pool>
    const platform: string
    const policy: Policy

    constructor (client: FakeClient, runtimeLister: map<string, RuntimeConfig>, imageLister: map<string, ImageConfig>,
                 poolLister: seq<Pool>, platform: string, policy: Policy)
      ensures this.client == client && this.runtimeLister == runtimeLister && this.imageLister == imageLister
      ensures this.poolLister == poolLister && this.platform == platform && this.policy == policy
    {
      this.client := client;
      this.runtimeLister := runtimeLister;
      this.imageLister := imageLister;
      this.poolLister := poolLister;
      this.platform := platform;
      this.policy := policy;
    }

    method Apply(existing: Option<MachineConfig>, desired: MachineConfig) returns (err: Option<ApiError>)
      modifies client
      ensures Reply(client.State(), err) == ApplyCall(old(client.State()), existing, desired)
    {
      match existing {
        case None =>
          err := client.CreateMachineConfig(desired);
        case Some(mc) =>
          if mc.content == desired.content {
            err := None;
          } else {
            err := client.UpdateMachineConfig(mc.(content := desired.content));
          }
      }
    }

    method SyncRuntimePool(cfg: RuntimeConfig, pool: Pool) returns (err: Option<ApiError>)
      modifies client
      ensures Reply(client.State(), err) == RuntimePoolStep(old(client.State()), cfg, pool, platform)
    {
      var key := RuntimeKey(pool, cfg);
      var existing := client.GetMachineConfig(key);
      err := client.UpdateStatus(cfg);
      if err.Some? { return; }
      err := client.UpdateStatus(cfg);
      if err.Some? { return; }
      err := Apply(existing, RenderRuntime(pool, cfg, platform));
      if err.Some? { return; }
      if key !in cfg.finalizers {
        err := client.PatchFinalizer(cfg.name, key);
        if err.Some? { return; }
      }
      err := client.UpdateStatus(Synced(cfg));
    }

    method SyncHandler(key: string) returns (err: Option<ApiError>)
      modifies client
      ensures Reply(client.State(), err) == SyncRuntime(old(client.State()), runtimeLister, poolLister, key, policy, platform)
    {
      if key !in runtimeLister {
        return None;
      }
      var cfg := runtimeLister[key];
      var violation := FirstViolation(policy, cfg.spec);
      if violation.Some? {
        var _ := client.UpdateStatus(Rejected(cfg, violation.value));
        return None;
      }
      var targets := SelectPools(cfg.poolSelector, poolLister);
      err := None;
      var i := 0;
      while i < |targets|
        invariant 0 <= i <= |targets|
        invariant err == None
        invariant RuntimePools(old(client.State()), cfg, targets, platform) ==
                  RuntimePools(client.State(), cfg, targets[i..], platform)
      {
        err := SyncRuntimePool(cfg, targets[i]);
        assert targets[i..][0] == targets[i] && targets[i..][1..] == targets[i + 1..];
        if err.Some? {
          return;
        }
        i := i + 1;
      }
    }

    method SyncImagePool(img: ImageConfig, pool: Pool) returns (err: Option<ApiError>)
      modifies client
      ensures Reply(client.State(), err) == ImagePoolStep(old(client.State()), img, pool, platform)
    {
      var existing := client.GetMachineConfig(RegistriesKey(pool, img));
      err := Apply(existing, RenderRegistries(pool, img, platform));
    }

    method SyncImgHandler(key: string) returns (err: Option<ApiError>)
      modifies client
      ensures Reply(client.State(), err) == SyncImage(old(client.State()), imageLister, poolLister, key, platform)
    {
      if ClusterImageName !in imageLister {
        return None;
      }
      var img := imageLister[ClusterImageName];
      err := None;
      var i := 0;
      while i < |poolLister|
        invariant 0 <= i <= |poolLister|
        invariant err == None
        invariant ImagePools(old(client.State()), img, poolLister, platform) ==
                  ImagePools(client.State(), img, poolLister[i..], platform)
      {
        err := SyncImagePool(img, poolLister[i]);
        assert poolLister[i..][0] == poolLister[i] && poolLister[i..][1..] == poolLister[i + 1..];
        if err.Some? {
          return;
        }
        i := i + 1;
      }
    }
  }
}
