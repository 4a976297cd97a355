/** The objects the container-runtime-config controller reads and writes:
    machine config pools, the per-pool ContainerRuntimeConfig intent, the
    cluster-wide Image config, and the MachineConfig objects derived from them. */
module Model {

  datatype Option<T> = None | Some(value: T)

  /** A label set, and also the `matchLabels` part of a label selector. */
  type Labels = map<string, string>

  /** Standard matchLabels semantics: every required label is present with the required value. */
  predicate Selects(selector: Labels, labels: Labels) {
    forall k :: k in selector ==> k in labels && labels[k] == selector[k]
  }

  /** A MachineConfigPool: its own labels (which intents select on), the selector it uses
      to pick up machine configs, and the name of its current rendered configuration. */
  datatype Pool = Pool(name: string, labels: Labels, machineConfigSelector: Labels, currentConfig: string)

  /** The user-settable container runtime options. Sizes are pre-parsed byte counts;
      a zero size, a zero pids limit and an empty level mean "not set". */
  datatype RuntimeSpec = RuntimeSpec(logLevel: string, logSizeMax: nat, overlaySize: nat, pidsLimit: int)

  datatype Condition = NoCondition | Succeeded | Failed(reason: string)

  datatype Status = Status(observedGeneration: int, condition: Condition)

  const EmptyStatus := Status(0, NoCondition)

  /** A ContainerRuntimeConfig object: the per-pool intent. */
  datatype RuntimeConfig = RuntimeConfig(
    name: string,
    uid: string,
    generation: int,
    spec: RuntimeSpec,
    poolSelector: Labels,
    finalizers: seq<string>,
    status: Status)

  /** The cluster-wide Image config (a singleton); only its registry sources matter here. */
  datatype ImageConfig = ImageConfig(
    name: string,
    uid: string,
    generation: int,
    insecureRegistries: seq<string>,
    blockedRegistries: seq<string>,
    allowedRegistries: seq<string>)

  /** The rendered file set of a machine config, abstracted to what it is rendered from.
      `Placeholder` stands for hand-built files that no renderer produces. */
  datatype Content =
    | Placeholder
    | RuntimeContent(runtime: RuntimeSpec)
    | RegistriesContent(insecure: seq<string>, blocked: seq<string>, allowed: seq<string>)

  datatype MachineConfig = MachineConfig(name: string, labels: Labels, osImageURL: string, content: Content)

  const RoleLabel := "machineconfiguration.openshift.io/role"

  /** Name of the machine config (and finalizer token) that a ContainerRuntimeConfig owns in a pool. */
  function RuntimeKey(pool: Pool, cfg: RuntimeConfig): string {
    "99-" + pool.name + "-" + cfg.uid + "-containerruntime"
  }

  /** Name of the machine config that the Image config owns in a pool. */
  function RegistriesKey(pool: Pool, img: ImageConfig): string {
    "99-" + pool.name + "-" + img.uid + "-registries"
  }

  /** The pools an intent's selector reaches, in list order. */
  function SelectPools(selector: Labels, pools: seq<Pool>): (r: seq<Pool>)
    ensures |r| <= |pools|
    ensures forall p :: p in r <==> p in pools && Selects(selector, p.labels)
  {
    if pools == [] then []
    else (if Selects(selector, pools[0].labels) then [pools[0]] else []) + SelectPools(selector, pools[1..])
  }

  /** `sub` is `pools` taken at the strictly increasing positions `idx`. */
  predicate PoolsAt(sub: seq<Pool>, pools: seq<Pool>, idx: seq<int>) {
    |idx| == |sub| &&
    (forall k :: 0 <= k < |idx| ==> 0 <= idx[k] < |pools| && sub[k] == pools[idx[k]]) &&
    (forall k, l :: 0 <= k < l < |idx| ==> idx[k] < idx[l])
  }

  /** Every position moved one place to the right. */
  function Shifted(idx: seq<int>): (r: seq<int>)
    ensures |r| == |idx| && forall k :: 0 <= k < |idx| ==> r[k] == idx[k] + 1
  {
    seq(|idx|, k requires 0 <= k < |idx| => idx[k] + 1)
  }

  /** Putting one pool in front of the list, and keeping it or not, extends the positions. */
  lemma ConsPoolsAt(sub: seq<Pool>, pools: seq<Pool>, idx: seq<int>, p: Pool, keep: bool)
    requires PoolsAt(sub, pools, idx)
    ensures PoolsAt((if keep then [p] else []) + sub, [p] + pools, (if keep then [0] else []) + Shifted(idx))
  {
    var pools' := [p] + pools;
    assert forall k :: 0 <= k < |idx| ==> pools'[idx[k] + 1] == pools[idx[k]];
  }

  /** Membership of a shifted position is membership of the original one. */
  lemma ConsIndexMembership(idx: seq<int>, keep: bool, j: int)
    requires forall k :: 0 <= k < |idx| ==> 0 <= idx[k]
    ensures j in (if keep then [0] else []) + Shifted(idx) <==> (j == 0 && keep) || (j > 0 && j - 1 in idx)
  {
    var s := Shifted(idx);
    if j > 0 && j - 1 in idx {
      var k :| 0 <= k < |idx| && idx[k] == j - 1;
      assert s[k] == j;
    }
  }

  /** Selection keeps exactly the positions whose labels match, in list order. */
  lemma {:induction false} SelectPoolsInOrder(selector: Labels, pools: seq<Pool>) returns (idx: seq<int>)
    ensures PoolsAt(SelectPools(selector, pools), pools, idx)
    ensures forall j :: 0 <= j < |pools| ==> (j in idx <==> Selects(selector, pools[j].labels))
  {
    if pools == [] {
      idx := [];
    } else {
      var tail := pools[1..];
      var rest := SelectPoolsInOrder(selector, tail);
      var head := Selects(selector, pools[0].labels);
      idx := (if head then [0] else []) + Shifted(rest);
      assert pools == [pools[0]] + tail;
      ConsPoolsAt(SelectPools(selector, tail), tail, rest, pools[0], head);
      forall j | 0 <= j < |pools|
        ensures j in idx <==> Selects(selector, pools[j].labels)
      {
        ConsIndexMembership(rest, head, j);
        if j > 0 {
          assert tail[j - 1] == pools[j];
        }
      }
    }
  }

  /** Every pool name in the list is different. */
  predicate DistinctNames(pools: seq<Pool>) {
    forall i, j :: 0 <= i < j < |pools| ==> pools[i].name != pools[j].name
  }

  /** Two runtime keys of the same config are equal only for pools of the same name. */
  lemma {:induction false} RuntimeKeyInjective(p1: Pool, p2: Pool, cfg: RuntimeConfig)
    requires RuntimeKey(p1, cfg) == RuntimeKey(p2, cfg)
    ensures p1.name == p2.name
  {
    var k := RuntimeKey(p1, cfg);
    var n := |p1.name|;
    assert |p2.name| == n;
    assert k[3..3 + n] == p1.name;
    assert RuntimeKey(p2, cfg)[3..3 + n] == p2.name;
  }

  /** Across intents, two runtime keys are equal only for the same pool name and the
      same UID, provided the UIDs have one length (the tests' UIDs all have five
      characters). Without that proviso the dashes make names ambiguous. */
  lemma {:induction false} RuntimeKeyPairInjective(p1: Pool, c1: RuntimeConfig, p2: Pool, c2: RuntimeConfig)
    requires |c1.uid| == |c2.uid|
    requires RuntimeKey(p1, c1) == RuntimeKey(p2, c2)
    ensures p1.name == p2.name && c1.uid == c2.uid
  {
    var k := RuntimeKey(p1, c1);
    var n := |p1.name|;
    var u := |c1.uid|;
    assert |p2.name| == n;
    assert k[3..3 + n] == p1.name;
    assert RuntimeKey(p2, c2)[3..3 + n] == p2.name;
    assert k[4 + n..4 + n + u] == c1.uid;
    assert RuntimeKey(p2, c2)[4 + n..4 + n + u] == c2.uid;
  }

  /** The dashes in the key format make names ambiguous when UIDs differ in length. */
  lemma RuntimeKeyCollidesAcrossUidLengths()
    ensures RuntimeKey(Pool("a-b", map[], map[], ""), RuntimeConfig("x", "c", 1, RuntimeSpec("", 0, 0, 0), map[], [], EmptyStatus))
         == RuntimeKey(Pool("a", map[], map[], ""), RuntimeConfig("y", "b-c", 1, RuntimeSpec("", 0, 0, 0), map[], [], EmptyStatus))
  {
  }

  /** Two registries keys of the same Image config are equal only for pools of the same name. */
  lemma {:induction false} RegistriesKeyInjective(p1: Pool, p2: Pool, img: ImageConfig)
    requires RegistriesKey(p1, img) == RegistriesKey(p2, img)
    ensures p1.name == p2.name
  {
    var k := RegistriesKey(p1, img);
    var n := |p1.name|;
    assert |p2.name| == n;
    assert k[3..3 + n] == p1.name;
    assert RegistriesKey(p2, img)[3..3 + n] == p2.name;
  }

  /** A ContainerRuntimeConfig and the Image config never own the same machine config. */
  lemma {:induction false} KeyKindsDisjoint(p: Pool, cfg: RuntimeConfig, q: Pool, img: ImageConfig)
    ensures RuntimeKey(p, cfg) != RegistriesKey(q, img)
  {
    var a := RuntimeKey(p, cfg);
    var b := RegistriesKey(q, img);
    assert a[|a| - 1] == 'e';
    assert b[|b| - 1] == 's';
  }
}
