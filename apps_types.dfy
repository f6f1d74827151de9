/**
 * The parts of the apps/v1alpha1 API types and of the pod specification that
 * the kb-agent container builder reads and writes.
 */
module AppsTypes {
  import opened Wrappers
  import Proto

  datatype EnvVar = EnvVar(name: string, value: string)

  /** A command to run, in the image or container it names (either may be empty). */
  datatype ExecAction = ExecAction(
    image: string,
    env: seq<EnvVar>,
    command: seq<string>,
    args: seq<string>,
    container: string)

  datatype RetryPolicy = RetryPolicy(maxRetries: int, retryInterval: int)

  /** A lifecycle action; only exec actions are handed to the agent. */
  datatype Action = Action(
    exec: Option<ExecAction>,
    timeoutSeconds: Proto.int32,
    retryPolicy: Option<RetryPolicy>)

  datatype LifecycleActionHandler = LifecycleActionHandler(
    builtinHandler: Option<string>,
    customHandler: Option<Action>)

  datatype ComponentSwitchover = ComponentSwitchover(
    withCandidate: Option<Action>,
    withoutCandidate: Option<Action>)

  /** A probe is an action plus its schedule. */
  datatype Probe = Probe(
    action: Action,
    initialDelaySeconds: Proto.int32,
    periodSeconds: Proto.int32,
    successThreshold: Proto.int32,
    failureThreshold: Proto.int32)

  datatype LifecycleActions = LifecycleActions(
    postProvision: Option<LifecycleActionHandler>,
    preTerminate: Option<LifecycleActionHandler>,
    switchover: Option<ComponentSwitchover>,
    memberJoin: Option<LifecycleActionHandler>,
    memberLeave: Option<LifecycleActionHandler>,
    readonly: Option<LifecycleActionHandler>,
    readwrite: Option<LifecycleActionHandler>,
    dataDump: Option<LifecycleActionHandler>,
    dataLoad: Option<LifecycleActionHandler>,
    reconfigure: Option<LifecycleActionHandler>,
    accountProvision: Option<LifecycleActionHandler>,
    roleProbe: Option<Probe>)

  datatype ContainerPort = ContainerPort(containerPort: int, name: string, protocol: string)

  datatype VolumeMount = VolumeMount(name: string, mountPath: string)

  datatype Container = Container(
    name: string,
    image: string,
    command: seq<string>,
    args: seq<string>,
    env: seq<EnvVar>,
    ports: seq<ContainerPort>,
    volumeMounts: seq<VolumeMount>,
    startupProbeTCPPort: Option<int>)

  datatype HostNetworkContainerPort = HostNetworkContainerPort(container: string, ports: seq<string>)

  datatype HostNetwork = HostNetwork(containerPorts: seq<HostNetworkContainerPort>)
}
