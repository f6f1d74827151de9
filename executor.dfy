/**
 * The kb-agent command executor (pkg/kbagent/service/command.go): how one
 * invocation's argument vector, environment, deadline and pipes are fixed
 * before the process exists, how the process's exit error is reported, and
 * how the blocking call chooses between output and error.
 *
 * The process itself, its pipes, the goroutines that pump them and the
 * channels between them are not modelled; what they contribute enters as
 * parameters (the ambient environment, pipe-creation failures, the wait error).
 */
module Executor {
  import opened Wrappers
  import opened Proto

  type bytes = seq<bv8>

  datatype Stream = Stdin | Stdout | Stderr

  /** The errors the executor can report. */
  datatype Error =
    | PipeError(stream: Stream, cause: string)   // a pipe could not be created
    | StartError(cause: string)                  // the process could not be started
    | CopyError(stream: Stream, cause: string)   // copying one stream failed
    | ExitError(state: string, stderr: string)   // the process exited unsuccessfully
    | Plain(text: string)                        // an error built from a bare message
    | Other(text: string)                        // any other error the wait reports

  function StreamName(s: Stream): string
  {
    match s
    case Stdin => "stdin"
    case Stdout => "stdout"
    case Stderr => "stderr"
  }

  /** The order in which the executor asks for the pipes. */
  function Rank(s: Stream): nat
  {
    match s
    case Stdin => 0
    case Stdout => 1
    case Stderr => 2
  }

  /** The text `Error()` returns for each kind of error. */
  function Message(e: Error): (r: string)
    ensures e.PipeError? || e.StartError? || e.CopyError? ==> |r| > |e.cause| && r[|r| - |e.cause|..] == e.cause
    ensures e.PipeError? ==> |r| >= |"failed to create "| && r[..|"failed to create "|] == "failed to create "
    ensures e.ExitError? ==> r == e.state
    ensures e.Plain? || e.Other? ==> r == e.text
  {
    match e
    case PipeError(s, cause) => "failed to create " + StreamName(s) + " pipe: " + cause
    case StartError(cause) => "failed to start command: " + cause
    case CopyError(s, cause) =>
      (match s
       case Stdin => "failed to copy from input reader to stdin: "
       case Stdout => "failed to copy stdout to output writer: "
       case Stderr => "failed to copy stderr to error writer: ") + cause
    case ExitError(state, _) => state
    case Plain(text) => text
    case Other(text) => text
  }

  /** The three pipes cannot be told apart by kind alone: their messages differ too. */
  lemma PipeErrorMessagesDistinct(s1: Stream, s2: Stream, c1: string, c2: string)
    requires s1 != s2
    ensures Message(PipeError(s1, c1)) != Message(PipeError(s2, c2))
  {
    var m1, m2 := Message(PipeError(s1, c1)), Message(PipeError(s2, c2));
    var prefix := "failed to create ";
    assert m1 == prefix + (StreamName(s1) + " pipe: " + c1);
    assert m2 == prefix + (StreamName(s2) + " pipe: " + c2);
    assert m1[|prefix| + 3] == StreamName(s1)[3];
    assert m2[|prefix| + 3] == StreamName(s2)[3];
  }

  /** The same wrapped error with another cause. */
  function WithCause(e: Error, c: string): Error
    requires e.PipeError? || e.StartError? || e.CopyError?
  {
    match e
    case PipeError(s, _) => PipeError(s, c)
    case StartError(_) => StartError(c)
    case CopyError(s, _) => CopyError(s, c)
  }

  /** The context phrase in front of a wrapped error's cause does not depend on the cause. */
  lemma MessagePhraseIndependentOfCause(e: Error, c: string)
    requires e.PipeError? || e.StartError? || e.CopyError?
    ensures var m, m' := Message(e), Message(WithCause(e, c));
      m[..|m| - |e.cause|] == m'[..|m'| - |c|]
  {
    match e
    case PipeError(s, cause) =>
      assert Message(e) == ("failed to create " + StreamName(s) + " pipe: ") + cause;
      assert Message(WithCause(e, c)) == ("failed to create " + StreamName(s) + " pipe: ") + c;
    case StartError(cause) =>
    case CopyError(s, cause) =>
  }

  /**
   * The argument list handed to the process after the executable: whatever
   * follows the executable in `commands`, then `args`.
   */
  function MergedArgs(action: ExecAction): (args: seq<string>)
    ensures |action.commands| > 0 ==> [action.commands[0]] + args == action.commands + action.args
    ensures |action.commands| == 0 ==> args == action.args
    ensures |args| == (if |action.commands| > 1 then |action.commands| - 1 else 0) + |action.args|
  {
    var leading: seq<string> := if |action.commands| > 1 then action.commands[1..] else [];
    leading + action.args
  }

  /**
   * The environment list: the serialised parameters, then the action's own
   * entries, then the ambient environment, the last only when the first two
   * are not both empty.
   */
  function MergedEnv(paramEnv: seq<string>, actionEnv: seq<string>, ambient: seq<string>): (env: seq<string>)
    ensures env == [] <==> paramEnv == [] && actionEnv == []
    ensures env != [] ==>
      && |env| == |paramEnv| + |actionEnv| + |ambient|
      && env[..|paramEnv|] == paramEnv
      && env[|paramEnv|..|paramEnv| + |actionEnv|] == actionEnv
      && env[|paramEnv| + |actionEnv|..] == ambient
  {
    var custom := if |actionEnv| > 0 then paramEnv + actionEnv else paramEnv;
    if |custom| > 0 then custom + ambient else custom
  }

  /** The deadline, in seconds, a call's timeout yields: only a present, positive timeout gives one. */
  function Deadline(timeout: Option<int32>): (d: Option<nat>)
    ensures d.Some? <==> timeout.Some? && timeout.value > 0
    ensures d.Some? ==> d.value == timeout.value as int
  {
    if timeout.Some? && timeout.value > 0 then Some(timeout.value as nat) else None
  }

  /**
   * The error reported when the process has been waited for: an exit error
   * becomes a bare error carrying the captured stderr text, unless the caller
   * supplied its own stderr writer; everything else passes through.
   */
  function MapExitError(waitErr: Option<Error>, hasStderrWriter: bool): (r: Option<Error>)
    ensures r.None? <==> waitErr.None?
    ensures waitErr.Some? && waitErr.value.ExitError? && !hasStderrWriter ==>
      r.value.Plain? && Message(r.value) == waitErr.value.stderr
    ensures waitErr.Some? && (!waitErr.value.ExitError? || hasStderrWriter) ==> r == waitErr
  {
    if waitErr.Some? && waitErr.value.ExitError? && !hasStderrWriter then Some(Plain(waitErr.value.stderr))
    else waitErr
  }

  /**
   * The result of the blocking call: the error of the non-blocking call
   * first (only ever a pipe-creation failure), then the completion error,
   * which includes a failure to start the process, else stdout.
   */
  function RunCommand(pipeErr: Option<Error>, completion: Option<Error>, stdout: bytes): (r: (Option<bytes>, Option<Error>))
    ensures r.1.None? <==> pipeErr.None? && completion.None?
    ensures pipeErr.Some? ==> r.1 == pipeErr
    ensures pipeErr.None? ==> r.1 == completion
    ensures r.0.Some? <==> r.1.None?
    ensures r.0.Some? ==> r.0.value == stdout
  {
    if pipeErr.Some? then (None, pipeErr)
    else if completion.Some? then (None, completion)
    else (Some(stdout), None)
  }

  /**
   * The blocking call as written. The non-blocking call hands back the
   * executor's own completion channel instead of the relay channel it fills,
   * so the blocking call and the relay both receive from that channel, which
   * carries one value and is then closed. `relayFirst` says which of the two
   * took the value; the other reads the closed channel and sees no error.
   */
  function RunCommandAsWritten(pipeErr: Option<Error>, completion: Option<Error>, stdout: bytes, relayFirst: bool)
    : (r: (Option<bytes>, Option<Error>))
    ensures pipeErr.Some? ==> r == (None, pipeErr)
    ensures !relayFirst ==> r == RunCommand(pipeErr, completion, stdout)
    ensures pipeErr.None? && relayFirst ==> r == (Some(stdout), None)
  {
    var received := if relayFirst then None else completion;
    if pipeErr.Some? then (None, pipeErr)
    else if received.Some? then (None, received)
    else (Some(stdout), None)
  }

  /**
   * Any failed command, an exit error included, is reported as a success in
   * the interleaving where the relay receives first.
   */
  lemma FailureMaskedWhenRelayReceivesFirst(stdout: bytes, e: Error)
    ensures RunCommand(None, Some(e), stdout).1 == Some(e)
    ensures RunCommandAsWritten(None, Some(e), stdout, true) == (Some(stdout), None)
  {
  }

  /** A process that fails to start is masked too: its failure travels on the completion channel. */
  lemma StartFailureMasked(stdout: bytes, cause: string)
    ensures RunCommand(None, Some(StartError(cause)), stdout) == (None, Some(StartError(cause)))
    ensures RunCommandAsWritten(None, Some(StartError(cause)), stdout, true) == (Some(stdout), None)
  {
  }

  /** Pipe-creation failures the operating system would report, one optional cause per stream. */
  datatype PipeFaults = PipeFaults(stdin: Option<string>, stdout: Option<string>, stderr: Option<string>)

  /** The pipes requested, in the order they are created. */
  function RequestedPipes(hasStdinReader: bool, hasStdoutWriter: bool, hasStderrWriter: bool): (r: seq<Stream>)
    ensures Stdin in r <==> hasStdinReader
    ensures Stdout in r <==> hasStdoutWriter
    ensures Stderr in r <==> hasStderrWriter
    ensures forall i, j :: 0 <= i < j < |r| ==> Rank(r[i]) < Rank(r[j])
  {
    (if hasStdinReader then [Stdin] else [])
    + (if hasStdoutWriter then [Stdout] else [])
    + (if hasStderrWriter then [Stderr] else [])
  }

  /** The command object `exec.CommandContext` returns, as far as the executor configures it. */
  class Cmd {
    var path: string
    var args: seq<string>
    /** None: no explicit environment, the process inherits the agent's. */
    var env: Option<seq<string>>
    /** The deadline of the context the command is bound to, in seconds. */
    var deadline: Option<nat>
    /** The pipes created so far, in order. */
    var pipes: seq<Stream>

    constructor CommandContext(deadline: Option<nat>, path: string, args: seq<string>)
      ensures this.path == path && this.args == args && this.deadline == deadline
      ensures env.None? && pipes == []
    {
      this.path := path;
      this.args := args;
      this.deadline := deadline;
      env := None;
      pipes := [];
    }

    method SetEnv(env: seq<string>)
      modifies this
      ensures this.env == Some(env)
      ensures path == old(path) && args == old(args) && deadline == old(deadline) && pipes == old(pipes)
    {
      this.env := Some(env);
    }

    /** StdinPipe, StdoutPipe and StderrPipe: create a pipe, or report why it could not be. */
    method Pipe(s: Stream, fault: Option<string>) returns (err: Option<Error>)
      modifies this
      ensures err == (if fault.Some? then Some(PipeError(s, fault.value)) else None)
      ensures pipes == if fault.Some? then old(pipes) else old(pipes) + [s]
      ensures path == old(path) && args == old(args) && deadline == old(deadline) && env == old(env)
    {
      if fault.Some? {
        err := Some(PipeError(s, fault.value));
      } else {
        err := None;
        pipes := pipes + [s];
      }
    }
  }

  /**
   * Everything runCommandX decides before the process is started: the
   * deadline, the executable and its arguments, the environment (installed
   * only when non-empty) and the pipes. `envM2L` is the serialiser of the
   * parameter map and `ambient` the agent's own environment.
   */
  method RunCommandX(
    action: ExecAction, parameters: map<string, string>, envM2L: map<string, string> -> seq<string>,
    ambient: seq<string>, timeout: Option<int32>,
    hasStdinReader: bool, hasStdoutWriter: bool, hasStderrWriter: bool, faults: PipeFaults)
    returns (cmd: Cmd?, err: Option<Error>)
    requires |action.commands| > 0
    ensures cmd == null <==> err.Some?
    ensures err == (if hasStdinReader && faults.stdin.Some? then Some(PipeError(Stdin, faults.stdin.value))
                    else if hasStdoutWriter && faults.stdout.Some? then Some(PipeError(Stdout, faults.stdout.value))
                    else if hasStderrWriter && faults.stderr.Some? then Some(PipeError(Stderr, faults.stderr.value))
                    else None)
    ensures cmd != null ==>
      && fresh(cmd)
      && cmd.path == action.commands[0]
      && cmd.args == MergedArgs(action)
      && cmd.deadline == Deadline(timeout)
      && cmd.pipes == RequestedPipes(hasStdinReader, hasStdoutWriter, hasStderrWriter)
      && var env := MergedEnv(envM2L(parameters), action.env, ambient);
         cmd.env == if env == [] then None else Some(env)
  {
    var deadline := Deadline(timeout);
    var mergedArgs := MergedArgs(action);
    var mergedEnv := MergedEnv(envM2L(parameters), action.env, ambient);
    var c := new Cmd.CommandContext(deadline, action.commands[0], mergedArgs);
    if |mergedEnv| > 0 {
      c.SetEnv(mergedEnv);
    }
    if hasStdinReader {
      err := c.Pipe(Stdin, faults.stdin);
      if err.Some? {
        return null, err;
      }
    }
    if hasStdoutWriter {
      err := c.Pipe(Stdout, faults.stdout);
      if err.Some? {
        return null, err;
      }
    }
    if hasStderrWriter {
      err := c.Pipe(Stderr, faults.stderr);
      if err.Some? {
        return null, err;
      }
    }
    err := None;
    cmd := c;
  }

  /** A channel as seen by one receiver: the values ready to be received and whether it is closed. */
  class Chan<T> {
    var buffer: seq<T>
    var closed: bool

    constructor (buffer: seq<T>, closed: bool)
      ensures this.buffer == buffer && this.closed == closed
    {
      this.buffer := buffer;
      this.closed := closed;
    }

    /**
     * gather: receive without blocking. A ready value is taken; a closed,
     * drained channel yields the zero value; otherwise nothing is received.
     */
    method Gather(zero: T) returns (r: Option<T>)
      modifies this
      ensures old(buffer) != [] ==> r == Some(old(buffer)[0]) && buffer == old(buffer)[1..]
      ensures old(buffer) == [] ==> buffer == [] && r == if closed then Some(zero) else None
      ensures closed == old(closed)
    {
      if buffer != [] {
        r := Some(buffer[0]);
        buffer := buffer[1..];
      } else if closed {
        r := Some(zero);
      } else {
        r := None;
      }
    }
  }
}
