# Linux service control for the `daemon` package, in Dafny

This project models the Linux half of the Go `daemon` package: the part that
installs, removes, starts, stops, restarts and queries a system service.
Which backend it uses depends on how the host was booted:

- **SysV init scripts** (`daemon_linux_systemv.go`). The service is an
  executable script `/etc/init.d/<name>`, rendered from the embedded
  `systemVConfig` template. It is enabled by `S87<name>` links in
  `/etc/rc{2,3,4,5}.d` and `K17<name>` links in `/etc/rc{0,1,6}.d`, and driven
  through `service <name> <verb>`.
- **systemd units** (`daemon_linux_systemd.go`). The service is a unit file
  `/etc/systemd/system/<name>.service`, rendered from the embedded
  `systemDConfig` template. It is registered with `systemctl daemon-reload`
  and `systemctl enable`, and driven through `systemctl <verb> <name>.service`.
- **Backend selection** (`daemon_linux.go`). `newDaemon` picks systemd when
  `/run/systemd/system` exists and SysV otherwise.

The modules are:

- `Text` covers substring search, the first `<literal>([0-9]+)` capture, and
  `strings.Join`/`Split`.
- `Template` holds the line-structured templates with `{{.Field}}` holes.
- `Host` is the operating system, as class `Os`. It has:
  - a file system of files and symbolic links;
  - a log, in order, of every call that can change the host or that runs a
    command: create, write, chmod, symlink, remove and exec (the `os.Stat`
    probes are not logged);
  - oracles for privilege, the executable path, refused calls and command
    results.
- `Daemon` holds the record, the error kinds, the messages and the guard
  order shared by both backends.
- `SystemV` and `SystemD` hold the backends; `Linux` holds the selector.

Every lifecycle operation is a module-level method that takes the record
and an `os: Os` and may change that host. Each `ensures` states:

- the first guard that fires (privilege, then installed, then the running
  state where the operation has one, via `Daemon.Guard`);
- the error returned;
- the new file system;
- the exact sequence of logged calls issued.

The two status parsers are pure functions. Their contracts speak of
substring occurrence and the leftmost PID capture.

SysV `checkRunning` requires the service *name* in the status output. The
installed script's `rh_status`, however, prints `servname`, which is the
*description* (daemon_linux_systemv.go:272, 393, 400). A service whose name
occurs nowhere in the script's running report (`<description> is running
[pid  N]`) is therefore read as stopped even while the script reports it
running. `SystemV.RunningReportNeedsName` and
`SystemV.RunningReportWithoutName` state this behaviour of the code as
written.

Two details of SysV `Remove` are modelled as the code does them:

- when the script deletion fails, it returns at once and never tries the
  runlevel links (daemon_linux_systemv.go:127-129);
- it deletes the script first and the links afterwards
  (daemon_linux_systemv.go:127-140).

## Model

| member | source | states |
|---|---|---|
| `Text.Contains` | daemon_linux_systemd.go:43 | True exactly when the pattern occurs somewhere in the text. This is what `regexp.MatchString` answers for a pattern without metacharacters. |
| `Text.FirstMatchFrom` | daemon_linux_systemv.go:45-46 | Returns the leftmost position, at or after the start, where the literal is followed by a digit, or None when there is none. |
| `Text.DigitRun` | daemon_linux_systemv.go:45 | Returns the greedy `[0-9]+` run: an all-digit prefix of the text that is not followed by another digit. |
| `Text.Capture` | daemon_linux_systemv.go:45-47 | None exactly when no `lit([0-9]+)` match exists. Otherwise it returns the nonempty digit run after the leftmost match, followed by a non-digit or the end, as `FindStringSubmatch(s)[1]` does. |
| `Text.CaptureOfFirst` | daemon_linux_systemd.go:44-46 | A match with no match before it is the one whose digits are captured. |
| `Text.CaptureAfter` | daemon_linux_systemd.go:44-47 | When no `lit([0-9]+)` match starts inside the text before a `lit`, the capture is exactly the maximal digit run after that `lit`. |
| `Text.SplitJoin` | daemon_linux_systemd.go:96-97 | Splitting a nonempty space-joined list whose elements contain no space gives the list back, so the joining loses nothing. |
| `Text.JoinHasElement` | daemon_linux_systemd.go:96 | Every element of a joined list occurs in the joined text. |
| `Text.Join` | daemon_linux_systemd.go:96-97 | Definition of `strings.Join`: the elements with the separator between adjacent ones. `SplitJoin`, `JoinHasElement` and `JoinHasInner` state what it keeps. |
| `Text.JoinHasInner` | daemon_linux_systemd.go:86-99 | An element that is neither first nor last occurs in the joined text with a separator on each side, so it is a whole field of the text. |
| `Template.Render` | daemon_linux_systemv.go:88-92 | Definition of template execution: each line with its holes filled from the field values, joined by newlines. |
| `Template.RenderHasLine` | daemon_linux_systemv.go:88-92 | Every template line, with its holes filled, occurs in the rendered text. |
| `Template.RenderHasInnerLine` | daemon_linux_systemd.go:86-99 | Every filled template line but the first and the last occurs in the rendered text as a whole line, between two newlines. |
| `Template.RenderKeepsLines` | daemon_linux_systemd.go:87-99 | Substitution never shifts lines. When neither literals nor values contain a newline, splitting the rendered text at newlines gives exactly the filled template lines. |
| `Host.SymlinkEach` | daemon_linux_systemv.go:101-110 | Definition of the file system after trying `os.Symlink` for each link in turn, ignoring failures. `SymlinkEachEffect` states its effect. |
| `Host.UnlinkEach` | daemon_linux_systemv.go:131-140 | Definition of the file system after trying `os.Remove` for each link in turn, ignoring failures. `UnlinkEachEffect` states its effect. |
| `Host.SymlinkEachEffect` | daemon_linux_systemv.go:101-110 | Best-effort linking, path by path: existing paths are untouched and a listed absent path becomes a link to the target unless refused. Nothing else appears. |
| `Host.UnlinkEachEffect` | daemon_linux_systemv.go:131-140 | Best-effort unlinking, path by path: a listed path disappears unless its removal is refused, and every other path is untouched. |
| `Host.SymlinkThenUnlink` | daemon_linux_systemv.go:101-140 | Linking absent paths and then unlinking them, with no removal refused, restores the original file system. |
| `Host.Os.Exec` | daemon_linux_systemv.go:41 | The command's outcome is the oracle's, and the command is appended to the call log. |
| `Host.Os.Create` | daemon_linux_systemv.go:72-75 | Unless refused, the path now holds an empty file. The call is logged. |
| `Host.Os.Write` | daemon_linux_systemv.go:88-95 | Succeeds only on an existing regular file that is not refused, replacing its text. The call is logged. |
| `Host.Os.Chmod` | daemon_linux_systemv.go:97-99 | Fails for a missing path or a refused call and changes no file. The call is logged. |
| `Host.Os.Symlink` | daemon_linux_systemv.go:102 | Succeeds exactly when the link path is absent and not refused, adding the link. The call is logged. |
| `Host.Os.Unlink` | daemon_linux_systemv.go:127 | Succeeds exactly when the path exists and is not refused, removing it. The call is logged. |
| `Daemon.Guard` | daemon_linux_systemv.go:146-158 | Definition of the guard sequence that opens every operation: the error of the first guard that stops it, or none. `GuardOrder` spells it out per operation. |
| `Daemon.ActionMessage` | daemon_linux_systemv.go:147-165 | Definition of the action message: `<Verb> <description>:` followed by the failed or the success suffix. |
| `Daemon.RunningMessage` | daemon_linux_systemv.go:47-50 | Definition of the running message: `Service <name> (pid  <pid>) is running...`, or without the PID part when none was captured. |
| `Daemon.StoppedMessage` | daemon_linux_systemv.go:55 | Definition of the stopped message: `Service <name> is stopped`. |
| `Daemon.GuardOrder` | daemon_linux_systemd.go:141-151 | Privilege is checked first, then installation (already installed for Install, not installed for the rest). Then Start refuses a running service and Stop a stopped one. Remove, Restart, Status and ExecPath have no running guard. |
| `SystemV.ServicePath` | daemon_linux_systemv.go:25-27 | Definition: the init script of service `name` is `/etc/init.d/<name>`. `ServicePathInjective` is its property. |
| `SystemV.Installed` | daemon_linux_systemv.go:30-37 | Definition: the service is installed exactly when its init script path exists. |
| `SystemV.ParseStatus` | daemon_linux_systemv.go:40-56 | Running exactly when the command succeeded and its output contains both `running` and the name. The message then carries the first `pid  <digits>` capture, or no PID when there is none. Otherwise the message is `Service <name> is stopped`. |
| `SystemV.CheckRunning` | daemon_linux_systemv.go:40-56 | Runs `service <name> status` once and returns the parse of its outcome. |
| `SystemV.LinkRunlevels` | daemon_linux_systemv.go:101-110 | Tries `S87<name>` in rc2-rc5, then `K17<name>` in rc0, rc1 and rc6, each pointing at the script and in that order. Refused links are skipped. |
| `SystemV.UnlinkRunlevels` | daemon_linux_systemv.go:131-140 | Tries to delete the same seven links in the same order, skipping failures. |
| `SystemV.Install` | daemon_linux_systemv.go:59-113 | Checks privilege, then that the service is not installed, before any effect. It then creates the script, resolves the executable, writes the rendered script and makes it executable. Each failure returns its own error with the state reached so far. On success it links the runlevels and reports success. |
| `SystemV.Remove` | daemon_linux_systemv.go:116-143 | Checks privilege and installation with no effect. A refused script deletion fails with nothing else done. Otherwise the script is deleted, the seven links are tried, and success is reported. |
| `SystemV.Start` | daemon_linux_systemv.go:146-166 | Checks privilege, installation, then not running. Only then does it run `service <name> start`, whose failure is the error. |
| `SystemV.Stop` | daemon_linux_systemv.go:169-189 | Checks privilege, installation, then running. Only then does it run `service <name> stop`. |
| `SystemV.Status` | daemon_linux_systemv.go:192-205 | Not privileged gives an empty message. Not installed gives `Status could not defined` with NotInstalled. Otherwise it returns the parsed message with no error, even for a stopped service. |
| `SystemV.ExecPath` | daemon_linux_systemv.go:208-224 | After the two guards, runs `service <who> execpath`, where an empty name means this service, and returns its output and failure. |
| `SystemV.Restart` | daemon_linux_systemv.go:227-243 | Checks privilege and installation only, with no running guard, then runs `service <name> restart`. |
| `SystemV.InstallThenRemove` | daemon_linux_systemv.go:59-143 | After a successful Install and a successful Remove, the file system is what it was, provided no link existed before and no link removal is refused. |
| `SystemV.ServicePathInjective` | daemon_linux_systemv.go:25-27 | Different service names never share an init script path. |
| `SystemV.RunlevelLinksDistinct` | daemon_linux_systemv.go:101-110 | The seven runlevel links are pairwise different, and none is the script itself. |
| `SystemV.RemoveUndoesInstall` | daemon_linux_systemv.go:97-142 | Deleting the script and unlinking undoes writing the script and linking, when no link pre-existed and no removal is refused. |
| `SystemV.RunningReportNeedsName` | daemon_linux_systemv.go:43-44 | The script's own running report (`<description> is running [pid  N]`) reads as running exactly when the service name occurs in it. |
| `SystemV.RunningReportPid` | daemon_linux_systemv.go:45-48 | When that report reads as running and no `pid  <digits>` match starts inside the description, the message carries the reported PID. |
| `SystemV.RunningReportWithoutName` | daemon_linux_systemv.go:400 | A service `foo` described as `Foo Service` whose script reports it running is read as stopped. |
| `SystemV.ScriptIdentifiesService` | daemon_linux_systemv.go:272-276 | The rendered script has the whole lines `proc="<name>"` and `servname="<description>"`. |
| `SystemV.ScriptCarriesPortAndVersion` | daemon_linux_systemv.go:273-274 | The rendered script has the whole lines `port="<port>"` and `version="<version>"`. |
| `SystemV.ScriptRunsExecutable` | daemon_linux_systemv.go:271-323 | The rendered script has the whole line `exec="<path>"` and the whole launch line `$exec <args> >> $stdoutlog 2>> $stderrlog &`, with the install arguments space-joined. |
| `SystemV.ScriptValues` | daemon_linux_systemv.go:88-92 | Definition of the values the script template is executed with: the record's fields, the executable path, and the install arguments space-joined. |
| `SystemV.ScriptLine` | daemon_linux_systemv.go:245-438 | Definition: the `systemVConfig` template transcribed line by line, line `k` being source line 245+k, with each `{{.Field}}` a hole. |
| `SystemV.ScriptText` | daemon_linux_systemv.go:83-95 | Definition: the init script Install writes is that template rendered with those values. |
| `SystemD.ServicePath` | daemon_linux_systemd.go:25-27 | Definition: the unit file of service `name` is `/etc/systemd/system/<name>.service`. `ServicePathInjective` is its property. |
| `SystemD.Installed` | daemon_linux_systemd.go:30-37 | Definition: the service is installed exactly when its unit file path exists. |
| `SystemD.ParseStatus` | daemon_linux_systemd.go:40-54 | Running exactly when the command succeeded and its output contains `Active: active`. There is no name check. The message carries the first `Main PID: <digits>` capture, or no PID. Otherwise the message is `Service <name> is stopped`. |
| `SystemD.CheckRunning` | daemon_linux_systemd.go:40-54 | Runs `systemctl status <name>.service` once and returns the parse of its outcome. |
| `SystemD.Install` | daemon_linux_systemd.go:57-112 | Checks privilege, then not installed. It then creates the unit file, resolves the executable and writes the rendered unit, each failure returning its own error. It then runs `daemon-reload` and then `enable <name>.service`; a failure of either is the error, and the file stays. |
| `SystemD.Remove` | daemon_linux_systemd.go:115-135 | Checks privilege and installation. It runs `disable` first: on failure it returns that error and leaves the unit file in place. Otherwise it deletes the unit file, whose refusal is the error. |
| `SystemD.Start` | daemon_linux_systemd.go:138-158 | Checks privilege, installation, then not running, and only then runs `systemctl start`. |
| `SystemD.Stop` | daemon_linux_systemd.go:161-181 | Checks privilege, installation, then running, and only then runs `systemctl stop`. |
| `SystemD.Status` | daemon_linux_systemd.go:184-197 | Not privileged gives an empty message. Not installed gives `Status could not defined` with NotInstalled. Otherwise it returns the parsed message with no error, even for a stopped service. |
| `SystemD.ExecPath` | daemon_linux_systemd.go:200-217 | After the two guards, runs `systemctl execpath <who>.service`, where an empty name means this service, and returns its output and failure unchanged. |
| `SystemD.Restart` | daemon_linux_systemd.go:220-236 | Checks privilege and installation only, then runs `systemctl restart`. |
| `SystemD.InstallThenRemove` | daemon_linux_systemd.go:57-135 | After a successful Install and a successful Remove, the file system is what it was. |
| `SystemD.ServicePathInjective` | daemon_linux_systemd.go:25-27 | Different service names never share a unit file path. |
| `SystemD.ReportsMainPid` | daemon_linux_systemd.go:43-47 | Output that says `Active: active` before its first `Main PID: <digits>` match reads as running, with exactly those digits as the PID. |
| `SystemD.UnitStartsExecutable` | daemon_linux_systemd.go:246 | The rendered unit has the whole line `ExecStart=` followed by the executable and the install arguments, space-joined, and nothing else. |
| `SystemD.CommandLineRoundTrip` | daemon_linux_systemd.go:86-97 | That command line splits back into exactly the executable and the arguments when none of them contains a space. |
| `SystemD.UnitOrdersDependencies` | daemon_linux_systemd.go:240-241 | The rendered unit has the whole lines `Requires=` and `After=`, each followed by the space-joined dependency list and nothing else. That list splits back into the dependencies when it is nonempty and space-free. |
| `SystemD.UnitValues` | daemon_linux_systemd.go:86-98 | Definition of the values the unit template is executed with: the record's fields, the dependencies space-joined, and the executable followed by the install arguments, space-joined. |
| `SystemD.UnitLine` | daemon_linux_systemd.go:238-253 | Definition: the `systemDConfig` template transcribed line by line, with each `{{.Field}}` a hole. |
| `SystemD.UnitText` | daemon_linux_systemd.go:86-99 | Definition: the unit file Install writes is that template rendered with those values. |
| `Linux.NewDaemon` | daemon_linux.go:13-18 | Returns a systemd record exactly when `/run/systemd/system` exists, and a SysV record otherwise. The record carries name, port, version, description and dependencies unchanged. The error is always nil. |

## Left out

- The `service` and `systemctl` tools are not modelled. Each command is an oracle (`Os.command`) giving success and standard output.
- File modes are not modelled. `Chmod` can only fail.
- `checkPrivileges`, `executablePath` and the `failed`/`success` suffixes are defined outside these files. They are inputs: `Os.privileged`, `Os.executable` and `Suffixes`.
- `execPath` (reading `/proc/self/exe`, daemon_linux.go:21-23) is pure I/O and is not modelled.
- The runtime behaviour of the generated init script (pid and lock files, `lsof`, `kill -9`) is out of scope. Only its text as a template is modelled.
- `SystemV.Installed`, `SystemD.Installed`, `Linux.NewDaemon`: existence is membership of the file-system map. `os.Stat` resolves symbolic links, and that resolution is not modelled. So a link at the service path, or at `/run/systemd/system`, whose target is missing reads as present in the model but as absent in the source. The lifecycle guards built on `Installed` inherit this, and `Create`/`Write` on such a link replace the link rather than writing its target.
- The `os.Stat` probes of `isInstalled` and `newDaemon` are reads of the file system, not logged calls, so the call log does not record them.
- `defer file.Close()` and any error it could report are not modelled.
- The Go `text/template` engine is not modelled. Templates are sequences of lines with holes over a fixed field enumeration, so a template cannot fail to parse. The source's parse-error branches are unreachable for the two embedded templates and are not modelled.
- Template execution is modelled as one whole-file write. A partially written file after an I/O error is not modelled; a failed write leaves the empty file `Create` made.
- `SystemV.Install` and `SystemD.Install` take their template as a parameter whose default is the embedded one (`Script`, `Unit`). Their contracts are stated for any template, and the contents of the embedded templates are proved separately.
- `SystemV.ParseStatus`: the name test is a substring test. It agrees with `regexp.MatchString(name, output)` only for names without regular-expression metacharacters; a name that is an invalid pattern would make the source read the service as stopped.
- Go error values are collapsed into the `Error` datatype. An OS or command failure is `Failed(call)`, naming the call that failed rather than carrying the operating system's message.
- Races between the installed check and later file operations are not modelled; each operation runs alone on the host.
- The platform-independent `Daemon` interface and the other platforms' backends are not part of this model.
