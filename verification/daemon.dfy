/**
 * What the two Linux backends share: the service record, the error kinds,
 * the action and status messages, and the order in which every lifecycle
 * operation checks its preconditions.
 */
module Daemon {
  import opened Text
  import opened Host

  /** The service descriptor both backend records carry. */
  datatype Record = Record(
    name: string,
    port: string,
    version: string,
    description: string,
    dependencies: seq<string>)

  datatype Error =
    | Privileges            // the error `checkPrivileges` reports
    | AlreadyInstalled
    | NotInstalled
    | AlreadyRunning
    | AlreadyStopped
    | ExecutableUnresolved  // the error `executablePath` reports
    | Failed(call: Call)    // the host refused a file-system call, or a native command exited with an error

  /** The package-wide `failed` and `success` message suffixes. */
  datatype Suffixes = Suffixes(failed: string, success: string)

  /** `"<Verb> <description>:"` followed by the failed or success suffix. */
  function ActionMessage(verb: string, description: string, sfx: Suffixes, ok: bool): string {
    verb + " " + description + ":" + (if ok then sfx.success else sfx.failed)
  }

  datatype Operation = Install | Remove | Start | Stop | Restart | Status | ExecPath

  /**
   * The error of the first lifecycle guard that stops `op`, or None when
   * `op` goes on to its effect: the privilege check, then the installed
   * check, then (Start and Stop only) the running check.
   */
  function Guard(op: Operation, privileged: bool, installed: bool, running: bool): Option<Error> {
    if !privileged then Some(Privileges)
    else if op == Install && installed then Some(AlreadyInstalled)
    else if op != Install && !installed then Some(NotInstalled)
    else if op == Start && running then Some(AlreadyRunning)
    else if op == Stop && !running then Some(AlreadyStopped)
    else None
  }

  /** The guard order, spelled out operation by operation. */
  lemma GuardOrder(op: Operation, privileged: bool, installed: bool, running: bool)
    ensures var g := Guard(op, privileged, installed, running);
      && (!privileged ==> g == Some(Privileges))
      && (privileged && op == Install ==> (g == Some(AlreadyInstalled) <==> installed) && (g == None <==> !installed))
      && (privileged && op != Install && !installed ==> g == Some(NotInstalled))
      && (privileged && installed && op == Start ==> g == if running then Some(AlreadyRunning) else None)
      && (privileged && installed && op == Stop ==> g == if running then None else Some(AlreadyStopped))
      && (privileged && installed && op in {Remove, Restart, Status, ExecPath} ==> g == None)
  {
  }

  /** What `checkRunning` reports: a status message and whether the service runs. */
  datatype Probe = Probe(message: string, running: bool)

  function RunningMessage(name: string, pid: Option<string>): string {
    match pid
    case Some(d) => "Service " + name + " (pid  " + d + ") is running..."
    case None => "Service " + name + " is running..."
  }

  function StoppedMessage(name: string): string {
    "Service " + name + " is stopped"
  }

  /** The message `Status` returns, with ErrNotInstalled, for a service that is not installed. */
  const UndefinedStatus := "Status could not defined"
}
