/** The actions a fake clientset records, in the shape the test harness inspects them. */
module Actions {
  import opened Model

  datatype Verb = Get | List | Watch | Create | Update | Patch | Delete

  /** The object carried by a create or update action. */
  datatype Object =
    | NoObject
    | MachineConfigObject(mc: MachineConfig)
    | RuntimeConfigObject(cfg: RuntimeConfig)

  /** A metadata patch, abstracted to the finalizer tokens it adds. */
  datatype PatchBody = NoPatch | AddFinalizers(tokens: seq<string>)

  /** One recorded client call. Root (cluster-scoped) actions have the empty namespace. */
  datatype Action = Action(
    verb: Verb,
    namespace: string,
    resource: string,
    subresource: string,
    name: string,
    obj: Object,
    patch: PatchBody)
  {
    /** Whether this action has the given verb on the given resource. */
    predicate Matches(v: Verb, res: string) {
      verb == v && resource == res
    }
  }

  const MachineConfigPools := "machineconfigpools"
  const ControllerConfigs := "controllerconfigs"
  const ContainerRuntimeConfigs := "containerruntimeconfigs"
  const MachineConfigs := "machineconfigs"
  const StatusSubresource := "status"

  function ObjectName(o: Object): string {
    match o
    case NoObject => ""
    case MachineConfigObject(mc) => mc.name
    case RuntimeConfigObject(cfg) => cfg.name
  }

  function RootGet(resource: string, name: string): Action {
    Action(Get, "", resource, "", name, NoObject, NoPatch)
  }

  function RootCreate(resource: string, o: Object): Action {
    Action(Create, "", resource, "", ObjectName(o), o, NoPatch)
  }

  function RootUpdate(resource: string, o: Object): Action {
    Action(Update, "", resource, "", ObjectName(o), o, NoPatch)
  }

  function RootUpdateSubresource(resource: string, subresource: string, o: Object): Action {
    Action(Update, "", resource, subresource, ObjectName(o), o, NoPatch)
  }

  function RootPatch(resource: string, name: string, patch: PatchBody): Action {
    Action(Patch, "", resource, "", name, NoObject, patch)
  }

  /** What the harness's first comparison looks at: verb, resource, subresource. */
  datatype Shape = Shape(verb: Verb, resource: string, subresource: string, name: string)

  function ShapeOf(a: Action): Shape {
    Shape(a.verb, a.resource, a.subresource, a.name)
  }

  /** Two traces agree action by action in verb, resource, subresource and name. */
  predicate SameShapes(s: seq<Action>, t: seq<Action>) {
    |s| == |t| && forall i :: 0 <= i < |s| ==> ShapeOf(s[i]) == ShapeOf(t[i])
  }

}
