/** The write client the controller talks to, in the form the tests use it: a fake
    clientset that keeps the objects and records every call it receives, in order. */
module Client {
  import opened Model
  import opened Actions

  datatype ApiError = NotFound(resource: string, name: string) | AlreadyExists(resource: string, name: string)

  /** Everything the client holds: machine configs by name, ContainerRuntimeConfig
      objects by name, and the log of recorded actions. */
  datatype World = World(
    machineConfigs: map<string, MachineConfig>,
    runtimeConfigs: map<string, RuntimeConfig>,
    actions: seq<Action>)

  /** The store keeps every machine config under its own name. */
  predicate WellKeyed(w: World) {
    forall k :: k in w.machineConfigs ==> w.machineConfigs[k].name == k
  }

  /** The client after a call, and the error the call returned. */
  datatype Reply = Reply(world: World, err: Option<ApiError>)

  function Record(w: World, a: Action): World {
    w.(actions := w.actions + [a])
  }

  function Lookup(w: World, name: string): Option<MachineConfig> {
    if name in w.machineConfigs then Some(w.machineConfigs[name]) else None
  }

  /** A get records itself and changes nothing else. */
  function GetMachineConfigCall(w: World, name: string): (r: (World, Option<MachineConfig>))
    ensures r.0 == Record(w, RootGet(MachineConfigs, name))
    ensures r.1.Some? <==> name in w.machineConfigs
    ensures r.1.Some? ==> r.1.value == w.machineConfigs[name]
  {
    (Record(w, RootGet(MachineConfigs, name)), Lookup(w, name))
  }

  /** A create stores a new object; an object of that name already there is an error. */
  function CreateMachineConfigCall(w: World, mc: MachineConfig): (r: Reply)
    ensures r.world.actions == w.actions + [RootCreate(MachineConfigs, MachineConfigObject(mc))]
    ensures r.world.runtimeConfigs == w.runtimeConfigs
    ensures r.err == None <==> mc.name !in w.machineConfigs
    ensures r.err == None ==> r.world.machineConfigs == w.machineConfigs[mc.name := mc]
    ensures r.err != None ==> r.world.machineConfigs == w.machineConfigs
  {
    var w' := Record(w, RootCreate(MachineConfigs, MachineConfigObject(mc)));
    if mc.name in w.machineConfigs then Reply(w', Some(AlreadyExists(MachineConfigs, mc.name)))
    else Reply(w'.(machineConfigs := w.machineConfigs[mc.name := mc]), None)
  }

  /** An update replaces an existing object; a missing object is an error. */
  function UpdateMachineConfigCall(w: World, mc: MachineConfig): (r: Reply)
    ensures r.world.actions == w.actions + [RootUpdate(MachineConfigs, MachineConfigObject(mc))]
    ensures r.world.runtimeConfigs == w.runtimeConfigs
    ensures r.err == None <==> mc.name in w.machineConfigs
    ensures r.err == None ==> r.world.machineConfigs == w.machineConfigs[mc.name := mc]
    ensures r.err != None ==> r.world.machineConfigs == w.machineConfigs
  {
    var w' := Record(w, RootUpdate(MachineConfigs, MachineConfigObject(mc)));
    if mc.name !in w.machineConfigs then Reply(w', Some(NotFound(MachineConfigs, mc.name)))
    else Reply(w'.(machineConfigs := w.machineConfigs[mc.name := mc]), None)
  }

  /** A status write goes to the status subresource: only the stored object's status changes. */
  function UpdateStatusCall(w: World, cfg: RuntimeConfig): (r: Reply)
    ensures r.world.actions ==
      w.actions + [RootUpdateSubresource(ContainerRuntimeConfigs, StatusSubresource, RuntimeConfigObject(cfg))]
    ensures r.world.machineConfigs == w.machineConfigs
    ensures r.err == None <==> cfg.name in w.runtimeConfigs
    ensures r.err == None ==>
      r.world.runtimeConfigs == w.runtimeConfigs[cfg.name := w.runtimeConfigs[cfg.name].(status := cfg.status)]
    ensures r.err != None ==> r.world.runtimeConfigs == w.runtimeConfigs
  {
    var w' := Record(w, RootUpdateSubresource(ContainerRuntimeConfigs, StatusSubresource, RuntimeConfigObject(cfg)));
    if cfg.name !in w.runtimeConfigs then Reply(w', Some(NotFound(ContainerRuntimeConfigs, cfg.name)))
    else
      var stored := w.runtimeConfigs[cfg.name];
      Reply(w'.(runtimeConfigs := w.runtimeConfigs[cfg.name := stored.(status := cfg.status)]), None)
  }

  /** The finalizer list after adding one token; adding a token already there changes nothing. */
  function WithFinalizer(finalizers: seq<string>, token: string): (r: seq<string>)
    ensures token in r
    ensures forall t :: t in r <==> t in finalizers || t == token
    ensures token in finalizers ==> r == finalizers
  {
    if token in finalizers then finalizers else finalizers + [token]
  }

  /** A metadata patch that adds one finalizer token to a stored object. */
  function PatchFinalizerCall(w: World, name: string, token: string): (r: Reply)
    ensures r.world.actions == w.actions + [RootPatch(ContainerRuntimeConfigs, name, AddFinalizers([token]))]
    ensures r.world.machineConfigs == w.machineConfigs
    ensures r.err == None <==> name in w.runtimeConfigs
    ensures r.err == None ==> name in r.world.runtimeConfigs && token in r.world.runtimeConfigs[name].finalizers
    ensures r.err == None ==>
      r.world.runtimeConfigs ==
        w.runtimeConfigs[name := w.runtimeConfigs[name].(finalizers := WithFinalizer(w.runtimeConfigs[name].finalizers, token))]
    ensures r.err != None ==> r.world.runtimeConfigs == w.runtimeConfigs
  {
    var w' := Record(w, RootPatch(ContainerRuntimeConfigs, name, AddFinalizers([token])));
    if name !in w.runtimeConfigs then Reply(w', Some(NotFound(ContainerRuntimeConfigs, name)))
    else
      var stored := w.runtimeConfigs[name];
      Reply(w'.(runtimeConfigs := w.runtimeConfigs[name := stored.(finalizers := WithFinalizer(stored.finalizers, token))]), None)
  }

  /** The fake clientset: its stored objects change in place and every call is appended to `actions`. */
  class FakeClient {
    var machineConfigs: map<string, MachineConfig>
    var runtimeConfigs: map<string, RuntimeConfig>
    var actions: seq<Action>

    function State(): World
      reads this
    {
      World(machineConfigs, runtimeConfigs, actions)
    }

    /** A clientset seeded with objects, each stored under its own name; it has recorded nothing yet. */
    constructor (mcs: map<string, MachineConfig>, rcs: map<string, RuntimeConfig>)
      requires WellKeyed(World(mcs, rcs, []))
      ensures State() == World(mcs, rcs, []) && WellKeyed(State())
    {
      machineConfigs := mcs;
      runtimeConfigs := rcs;
      actions := [];
    }

    method GetMachineConfig(name: string) returns (found: Option<MachineConfig>)
      modifies this
      ensures (State(), found) == GetMachineConfigCall(old(State()), name)
    {
      actions := actions + [RootGet(MachineConfigs, name)];
      found := if name in machineConfigs then Some(machineConfigs[name]) else None;
    }

    method CreateMachineConfig(mc: MachineConfig) returns (err: Option<ApiError>)
      modifies this
      ensures Reply(State(), err) == CreateMachineConfigCall(old(State()), mc)
    {
      actions := actions + [RootCreate(MachineConfigs, MachineConfigObject(mc))];
      if mc.name in machineConfigs {
        err := Some(AlreadyExists(MachineConfigs, mc.name));
      } else {
        machineConfigs := machineConfigs[mc.name := mc];
        err := None;
      }
    }

    method UpdateMachineConfig(mc: MachineConfig) returns (err: Option<ApiError>)
      modifies this
      ensures Reply(State(), err) == UpdateMachineConfigCall(old(State()), mc)
    {
      actions := actions + [RootUpdate(MachineConfigs, MachineConfigObject(mc))];
      if mc.name !in machineConfigs {
        err := Some(NotFound(MachineConfigs, mc.name));
      } else {
        machineConfigs := machineConfigs[mc.name := mc];
        err := None;
      }
    }

    method UpdateStatus(cfg: RuntimeConfig) returns (err: Option<ApiError>)
      modifies this
      ensures Reply(State(), err) == UpdateStatusCall(old(State()), cfg)
    {
      actions := actions + [RootUpdateSubresource(ContainerRuntimeConfigs, StatusSubresource, RuntimeConfigObject(cfg))];
      if cfg.name !in runtimeConfigs {
        err := Some(NotFound(ContainerRuntimeConfigs, cfg.name));
      } else {
        var stored := runtimeConfigs[cfg.name];
        runtimeConfigs := runtimeConfigs[cfg.name := stored.(status := cfg.status)];
        err := None;
      }
    }

    method PatchFinalizer(name: string, token: string) returns (err: Option<ApiError>)
      modifies this
      ensures Reply(State(), err) == PatchFinalizerCall(old(State()), name, token)
    {
      actions := actions + [RootPatch(ContainerRuntimeConfigs, name, AddFinalizers([token]))];
      if name !in runtimeConfigs {
        err := Some(NotFound(ContainerRuntimeConfigs, name));
      } else {
        var stored := runtimeConfigs[name];
        runtimeConfigs := runtimeConfigs[name := stored.(finalizers := WithFinalizer(stored.finalizers, token))];
        err := None;
      }
    }
  }
}
