# kb-agent core, modelled in Dafny

This project models the deterministic core of the KubeBlocks kb-agent sidecar and the code around it that configures it:

- **Executor**: how the agent's executor fixes one command invocation before the process exists. It decides the argument vector, the environment list, whether an explicit environment is installed, the deadline and the pipes. It also covers how a process's exit error is reported, how the blocking call picks between output and error, and the non-blocking receive helper.
- **KBAgentComponent**: how the component controller builds the sidecar. It turns a component's lifecycle actions into the fixed-order catalog of action and probe descriptors, and checks that all exec actions agree on one image and one container. It then appends the agent container (and, for a custom exec image, an init container) to the pod, and publishes the agent's port on the host network.
- **ChecksMiddleware**: how lorry's probe middleware rewrites `GET /v1.0/bindings…` into a POST. For probe operations it replaces the body with the operation and its query metadata.
- **KBAgentMain**: how the agent's entry point turns its `KEY=VALUE` environment into a map.
- **Hsm**: the guard conjunction and the action-transition result filter of the hierarchical state machine.
- **ClusterDefinitionConversion**: the apps/v1alpha1 ⇄ apps/v1 conversion of ClusterDefinition, which carries only the object metadata.

Files:
- `wrappers.dfy`: Option and Result.
- `proto.dfy`: the agent's descriptor types and Go's `int32`.
- `apps_types.dfy`: the API and pod types the builder reads.
- `executor.dfy`, `kbagent_component.dfy`, `checks_middleware.dfy`, `env_mapping.dfy`, `hsm_transition.dfy` and `clusterdefinition_conversion.dfy`: one module per source file.

Calls into code that is not part of this model are parameters of the operations that make them:
- `util.EnvM2L`
- `kbagent.BuildEnvVars`
- `json.Marshal` (for a string list and for the request body)
- `viper.GetString` of the tools image
- `os.Environ()`
- the pipe-creation failures of `os/exec`

The ambient environment is appended after the custom entries (pkg/kbagent/service/command.go:113-115); it is not merged key by key, and which duplicate wins is decided inside `os/exec`. The model states the list order only.

## Model

| member | source | states |
|---|---|---|
| Executor.MergedArgs | pkg/kbagent/service/command.go:99-106 | the executable followed by the arguments is exactly `Commands ++ Args`, so the arguments are `Commands[1:] ++ Args` when there is more than one command word and exactly `Args` otherwise |
| Executor.MergedEnv | pkg/kbagent/service/command.go:108-117 | the list is empty iff both the serialised parameters and the action's env are empty; otherwise it is those two followed by the ambient environment, slice by slice |
| Executor.Deadline | pkg/kbagent/service/command.go:93-97 | a deadline exists iff the timeout is present and positive, and then equals it |
| Executor.MapExitError | pkg/kbagent/service/command.go:193-199 | no error stays no error; an exit error without a stderr writer becomes a plain error whose message is the captured stderr; anything else passes through unchanged |
| Executor.Message | pkg/kbagent/service/command.go:128-199 | a pipe, start or copy error's text is a non-empty context phrase followed by its cause, a pipe error's beginning with "failed to create "; an exit error's text is its state, and an error built from a message is that message |
| Executor.MessagePhraseIndependentOfCause | pkg/kbagent/service/command.go:128-186 | the context phrase in front of a wrapped error's cause is the same whatever the cause |
| Executor.RequestedPipes | pkg/kbagent/service/command.go:128-148 | a stream's pipe is requested iff its reader or writer is given, and the requests come in stdin, stdout, stderr order, each at most once |
| Executor.PipeErrorMessagesDistinct | pkg/kbagent/service/command.go:128-148 | the creation failures of different pipes carry different messages |
| Executor.Cmd.CommandContext | pkg/kbagent/service/command.go:119 | a fresh command has the executable, arguments and deadline given, no explicit environment and no pipes |
| Executor.Cmd.SetEnv | pkg/kbagent/service/command.go:120-122 | installs the explicit environment and touches nothing else |
| Executor.Cmd.Pipe | pkg/kbagent/service/command.go:128-148 | a pipe is added, or a creation failure is reported as that stream's pipe error with nothing added |
| Executor.RunCommandX | pkg/kbagent/service/command.go:91-148 | the command exists iff no requested pipe failed; the error is the first failing requested pipe's, in stdin, stdout, stderr order; the command runs `Commands[0]` with the merged arguments and the deadline of the timeout gate, has exactly the requested pipes, and has an explicit environment iff the merged env is non-empty |
| Executor.Chan.Gather | pkg/kbagent/service/command.go:41-48 | a ready value is taken off the channel; a closed, drained channel gives the zero value; otherwise nothing is received and nothing changes |
| Executor.RunCommand | pkg/kbagent/service/command.go:50-60 | an error is returned iff the non-blocking call failed (which happens only when a stdin, stdout or stderr pipe cannot be created) or the completion carries an error, the pipe error first; a failure to start the process is a completion value; stdout is returned exactly when there is no error |
| Executor.RunCommandAsWritten | pkg/kbagent/service/command.go:50-89 | with the executor's own completion channel handed back, the result agrees with the intended one when the blocking call receives first, and is a success whenever the relay receives first |
| Executor.StartFailureMasked | pkg/kbagent/service/command.go:150-157 | a process that fails to start is an error for the intended call but a success for the as-written call when the relay receives first, since the start failure travels on the completion channel |
| Executor.FailureMaskedWhenRelayReceivesFirst | pkg/kbagent/service/command.go:73-88 | any completion error, an exit error included, is an error for the intended call and a success for the as-written call in the interleaving where the relay goroutine takes the completion value |
| KBAgentComponent.BuildAction4KBAgentLow | pkg/controller/component/kbagent.go:158-179 | a descriptor exists iff the action and its exec are present; it carries the name, the commands, the args, the container and the timeout, no env, and a retry policy iff the source has one, both fields copied |
| KBAgentComponent.BuildAction4KBAgent | pkg/controller/component/kbagent.go:151-156 | as the low-level builder on the handler's custom action, and nothing for an absent handler |
| KBAgentComponent.BuildProbe4KBAgent | pkg/controller/component/kbagent.go:181-195 | both descriptors or neither, both iff the probe and its exec are present; the probe descriptor names the action and copies the delay, period and thresholds, with no report period |
| KBAgentComponent.CatalogOrder | pkg/controller/component/kbagent.go:106-146 | the catalog lists each buildable action once, under its own name, in the fixed order postProvision … roleProbe, copied from its source, and a slot is listed iff it is buildable |
| KBAgentComponent.RoleProbeCatalog | pkg/controller/component/kbagent.go:143-146 | there is at most one probe; there is one iff the role probe's action is buildable, and then the catalog's last action is the role probe |
| KBAgentComponent.CatalogUnrolled | pkg/controller/component/kbagent.go:106-146 | the catalog is the concatenation of the twelve steps' results, in order |
| KBAgentComponent.AppendAction | pkg/controller/component/kbagent.go:106-108 | one step appends the handler's descriptor when it is built and nothing otherwise |
| KBAgentComponent.AppendRoleProbe | pkg/controller/component/kbagent.go:143-146 | the role-probe step appends the action and the probe descriptor together or neither |
| KBAgentComponent.BuildKBAgentStartupEnv | pkg/controller/component/kbagent.go:100-149 | the encoder receives exactly the catalog's actions and probes |
| KBAgentComponent.ExecImageNContainer | pkg/controller/component/kbagent.go:218-282 | without lifecycle actions the result is an empty image and container; a successful result that names a container names the image that container runs in the pod; a missing-container error names a container the pod does not have |
| KBAgentComponent.FindContainer | pkg/controller/component/kbagent.go:260-267 | nothing is found iff no container has the name; otherwise the first container with that name is found |
| KBAgentComponent.CheckedHandlers | pkg/controller/component/kbagent.go:223-239 | the handlers checked are the ten custom-handler slots from postProvision to accountProvision, in order, and then the role probe's action iff it has an exec action; the switchover is not among them |
| KBAgentComponent.ScanExec | pkg/controller/component/kbagent.go:241-258 | the scan over the handlers fails only with the image error or the container error |
| KBAgentComponent.ScanExecCharacterised | pkg/controller/component/kbagent.go:241-258 | the scan fails iff the non-empty images, or the non-empty containers, are not all equal; when only the containers conflict the error is "only one exec container", when only the images conflict it is "only one exec image", and when both conflict it is one of the two; on success it yields the first non-empty image and container |
| KBAgentComponent.ExecImageNContainerCases | pkg/controller/component/kbagent.go:218-282 | every outcome of the validator: conflicting images only give the image error and conflicting containers only the container error (either, when both conflict); a named container that is missing; an image alone kept; a container alone lending its image; an image and a container that must match |
| KBAgentComponent.NoLifecycleActions | pkg/controller/component/kbagent.go:219-221 | no lifecycle actions give an empty image and container and no error |
| KBAgentComponent.SwitchoverNotChecked | pkg/controller/component/kbagent.go:223-239 | replacing the switchover action never changes the validator's result |
| KBAgentComponent.CustomExecActionImageNContainer | pkg/controller/component/kbagent.go:218-282 | the loops compute the validator's result |
| KBAgentComponent.KBAgentContainer | pkg/controller/component/kbagent.go:60-78 | the agent container is named kbagent, runs the tools image with the given env, starts `/bin/kbagent --port 3501`, exposes only the TCP port 3501 named http, and its startup probe checks that exposed port |
| KBAgentComponent.KBAgentInitContainer | pkg/controller/component/kbagent.go:284-291 | the init container runs the tools image, mounts only the shared volume, and copies the agent and curl into that mount, so the agent lands exactly at the path the adapted container runs |
| KBAgentComponent.WithCustomImage | pkg/controller/component/kbagent.go:210-212 | the result is the given container with only three fields changed: the custom image, the first command word replaced by the agent on the shared mount, and the shared volume mount appended; name, args, env, ports and startup probe stay as they were |
| KBAgentComponent.SynthesizedComponent.AdaptKBAgentIfCustomImageNContainerDefined | pkg/controller/component/kbagent.go:197-216 | on a validation error, or with no custom image, nothing changes; with a custom image the init container is appended and the agent container is moved onto the image |
| KBAgentComponent.SynthesizedComponent.BuildKBAgentContainer | pkg/controller/component/kbagent.go:51-99 | without lifecycle actions, or on an encoder or validation error, nothing changes; otherwise exactly one agent container is appended (adapted when a custom image is named), the init container iff a custom image is named, and one host-network port entry iff a host network is configured |
| ChecksMiddleware.Metadata | lorry/middleware/http/probe/checks_middleware.go:61-82 | the operation key never appears; the keys are a subset of the query's; a single value is kept unchanged; any other count of values maps to the JSON encoding of the list, and the key is absent when encoding fails |
| ChecksMiddleware.MetadataIgnoresOperation | lorry/middleware/http/probe/checks_middleware.go:64-66 | whatever the query gives for the operation key, the metadata is the same as without it |
| ChecksMiddleware.MetadataOfSingleValues | lorry/middleware/http/probe/checks_middleware.go:67-68 | when every key has one value the metadata is the query minus the operation key, whatever the encoder does |
| ChecksMiddleware.GetRequestBody | lorry/middleware/http/probe/checks_middleware.go:61-90 | the walk over the query produces exactly the metadata, and the body is the encoding of the operation with it |
| ChecksMiddleware.QueryGet | lorry/middleware/http/probe/checks_middleware.go:100 | the first value of the key, or the empty string when there is none |
| ChecksMiddleware.ProbeOperationExamples | lorry/middleware/http/probe/checks_middleware.go:101 | examples of the prefix test: `getRole`, `checkStatus` and `listUsers` are probe operations; the empty operation, `createUser` and `ge` are not |
| ChecksMiddleware.SetMiddleware | lorry/middleware/http/probe/checks_middleware.go:92-107 | only a GET under the bindings path becomes a POST; the body is replaced iff it is such a request and the operation begins with get, check or list; path and query are unchanged |
| KBAgentMain.SplitAtEquals | cmd/kbagent/main.go:90 | key, `=` and value put back together give the entry, and the key holds no `=` |
| KBAgentMain.SplitAtEqualsUnique | cmd/kbagent/main.go:90 | the split is the only one with a `=`-free key, so the value keeps every later `=` |
| KBAgentMain.SplitKeepsLaterEquals | cmd/kbagent/main.go:90 | examples of the split: `A=b=c` splits into `A` and `b=c`, and `=x` into the empty key and `x` |
| KBAgentMain.Mapping | cmd/kbagent/main.go:87-94 | the in-order overwriting fold of the entries, which holds a key for every entry |
| KBAgentMain.MappingKeys | cmd/kbagent/main.go:88-93 | the map's keys are exactly the pre-`=` parts of the entries |
| KBAgentMain.MappingLastWins | cmd/kbagent/main.go:89-92 | for a repeated key, the value of the last entry with that key is stored |
| KBAgentMain.EnvInMapping | cmd/kbagent/main.go:87-94 | the loop stores the entries in order, each overwriting earlier ones |
| Hsm.TransitionGuard.Condition | internal/hsm/transition.go:76-83 | the guard holds iff every guard function holds, so an empty list holds |
| Hsm.AllHold | internal/hsm/transition.go:77-82 | the walk answers true iff every guard in the list holds |
| Hsm.Evaluated | internal/hsm/transition.go:77-80 | the walk calls no more guards than there are; every guard called before the last one held; it stops before the end only at a failing guard |
| Hsm.EvaluationStopsAtFirstFailure | internal/hsm/transition.go:77-80 | with the first failing guard at position k, exactly k + 1 guards are called and the condition is false |
| Hsm.EvaluatedPrefixDecides | internal/hsm/transition.go:77-82 | the guards after the first failing one, which the walk does not call, cannot change its answer |
| Hsm.AllEvaluatedWhenAllHold | internal/hsm/transition.go:77-82 | when every guard holds, every guard is called |
| Hsm.NewTransitionGuard | internal/hsm/transition.go:69-74 | the guards are kept in the given order, and the description is empty |
| Hsm.ActionTransition.Execute | internal/hsm/transition.go:58-67 | an action error is returned with no state; otherwise there is no error, and the state is returned iff it is present and of the target kind |
| ClusterDefinitionConversion.ClusterDefinition.ConvertTo | apis/apps/v1alpha1/clusterdefinition_conversion.go:26-33 | the hub object receives this object's metadata; its spec and status are untouched; no error |
| ClusterDefinitionConversion.ClusterDefinition.ConvertFrom | apis/apps/v1alpha1/clusterdefinition_conversion.go:36-43 | this object receives the hub object's metadata; its spec and status are untouched; no error |
| ClusterDefinitionConversion.RoundTrip | apis/apps/v1alpha1/clusterdefinition_conversion.go:26-43 | converting to the hub version and back leaves the object as it was, and the hub object holds the same metadata |

## Left out

- Process spawning, the pipes' data, the copy goroutines, the WaitGroup and the channel plumbing (pkg/kbagent/service/command.go:150-201, 62-89) are concurrency and operating-system behaviour. The wait's result and the pipe-creation failures are inputs: a pipe-creation failure is the only error the non-blocking call returns, and a failure to start the process is part of the wait's result.
- Executor.MapExitError: the stderr text an exit error carries is taken as given. Whether `os/exec` fills it when no stderr writer was supplied is decided inside `os/exec`, which is not part of this model; the text may well be empty there.
- Executor.RunCommand: the copy errors that the stdin, stdout and stderr goroutines can send before the final value are not modelled. The completion is one optional error.
- Executor.RunCommandAsWritten: the interleaving is a boolean input. The goroutine that is left blocked on the unbuffered relay channel is not modelled.
- The timeout context's cancellation and the early `defer cancel()` are not modelled. The deadline is recorded only as a number of seconds.
- Which duplicate key wins in `cmd.Env` is decided by `os/exec`, and the order `util.EnvM2L` gives the parameter map is its own. Neither is part of this model: `envM2L` is a parameter.
- `kbagent.BuildEnvVars`, `json.Marshal` and `viper` are parameters or plain values, because their code is not part of this model.
- Executor.RunCommandX: an empty `Commands` is outside the precondition, because the code indexes `Commands[0]` unconditionally (line 119).
- KBAgentMain.EnvInMapping: every entry must contain `=`, because the code indexes the second half of the split unconditionally (cmd/kbagent/main.go:91).
- The container builder's image pull policy and the startup probe's handler are simplified: the model keeps only the probed TCP port.
- KBAgentComponent.SynthesizedComponent.AdaptKBAgentIfCustomImageNContainerDefined: the container pointer the Go code updates in place is modelled as a value that is passed in and returned. The aliasing between that pointer and the appended container is implicit.
- The `next` handler call, the request logging, and the status-code header read and write after it (lorry/middleware/http/probe/checks_middleware.go:109-120) are HTTP framework I/O.
- The encoded JSON bytes are the output of the `encode` parameter. Their format is not modelled.
- The retry controller and the probe scheduler are not part of this model.
- Only the object metadata, and stand-in spec and status types, are modelled for ClusterDefinition. The conversion never reads the other fields.
- Main's flags, logger, HTTP server and signal handling (cmd/kbagent/main.go) are I/O.

## Findings

| source | as written | input that shows it | evidently intended | confidence | as-written member | corrected member |
|---|---|---|---|---|---|---|
| pkg/kbagent/service/command.go:88 | `runCommandNonBlocking` returns `execErrorChan`, the executor's own completion channel, instead of `errChan`, the relay channel its goroutine fills. `runCommand` and the relay goroutine then both receive from the one channel, which carries one value and is closed. | A command that exits non-zero, or fails to start (that failure is sent on the same completion channel), with the relay goroutine receiving the completion value first: `runCommand` reads the closed channel, sees no error and returns stdout as a success. | Return `errChan`, so `runCommand` sees the completion error the relay forwards. | not executed | Executor.RunCommandAsWritten, Executor.FailureMaskedWhenRelayReceivesFirst, Executor.StartFailureMasked | Executor.RunCommand |
