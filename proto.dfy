/**
 * The descriptors the kb-agent sidecar is configured with (package proto of the
 * agent): the action and probe catalog built by the component controller and
 * read by the command executor.
 */
module Proto {
  import opened Wrappers

  /** Go's int32. */
  newtype int32 = x: int | -0x8000_0000 <= x < 0x8000_0000

  /** What to run: `commands[0]` is the executable, the rest are leading arguments. */
  datatype ExecAction = ExecAction(
    commands: seq<string>,
    args: seq<string>,
    env: seq<string>,      // "KEY=VALUE" entries
    container: string)

  datatype RetryPolicy = RetryPolicy(maxRetries: int, retryInterval: int)

  datatype Action = Action(
    name: string,
    exec: Option<ExecAction>,
    timeoutSeconds: int32,
    retryPolicy: Option<RetryPolicy>)

  datatype Probe = Probe(
    action: string,
    initialDelaySeconds: int32,
    periodSeconds: int32,
    successThreshold: int32,
    failureThreshold: int32,
    reportPeriodSeconds: Option<int32>)
}
