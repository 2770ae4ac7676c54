/**
 * The systemd backend: the service is a unit file under /etc/systemd/system,
 * registered with `systemctl daemon-reload` and `systemctl enable`, and
 * driven through `systemctl <verb> <name>.service`.
 */
module SystemD {
  import opened Text
  import opened Host
  import opened Template
  import opened Daemon

  /** Where the unit file of service `name` lives. */
  function ServicePath(name: string): string {
    "/etc/systemd/system/" + name + ".service"
  }

  /** The command line `systemctl <verb> <name>.service`. */
  function Systemctl(verb: string, name: string): seq<string> {
    ["systemctl", verb, name + ".service"]
  }

  /** The command line that makes systemd re-read its unit files. */
  const DaemonReload: seq<string> := ["systemctl", "daemon-reload"]

  /**
   * The parser half of `checkRunning`, applied to what
   * `systemctl status <name>.service` reported: the service runs when the
   * command succeeded and its output says `Active: active`; the PID is the
   * digit run after the first `Main PID: ` followed by a digit.
   */
  function ParseStatus(name: string, out: CmdResult): (p: Probe)
    ensures p.running <==> out.ok && Occurs(out.output, "Active: active")
    ensures p.running ==> p.message == RunningMessage(name, Capture(out.output, "Main PID: "))
    ensures !p.running ==> p.message == StoppedMessage(name)
  {
    if out.ok && Contains(out.output, "Active: active") then
      Probe(RunningMessage(name, Capture(out.output, "Main PID: ")), true)
    else
      Probe(StoppedMessage(name), false)
  }

  /** The fields the unit template is executed with. */
  datatype UnitField = Name | Port | Version | Description | Dependencies | Path

  /**
   * The values of the unit fields: the dependencies and the command line
   * (the executable followed by the install arguments) are space-joined.
   */
  function UnitValues(rec: Record, exe: string, args: seq<string>): UnitField -> string {
    (f: UnitField) => match f
      case Name => rec.name
      case Port => rec.port
      case Version => rec.version
      case Description => rec.description
      case Dependencies => Join(rec.dependencies, " ")
      case Path => Join([exe] + args, " ")
  }

  /** The unit file Install writes, for executable `exe` and extra arguments `args`. */
  function UnitText(rec: Record, exe: string, args: seq<string>): string {
    Render(Unit, UnitValues(rec, exe, args))
  }

  /** `isInstalled`: the unit file exists. */
  predicate Installed(rec: Record, os: Os)
    reads os
  {
    os.Exists(ServicePath(rec.name))
  }

  /** `checkRunning`: asks `systemctl status <name>.service` and parses what it reports. */
  method CheckRunning(rec: Record, os: Os) returns (p: Probe)
    modifies os`calls
    ensures p == ParseStatus(rec.name, os.command(Systemctl("status", rec.name)))
    ensures os.calls == old(os.calls) + [Exec(Systemctl("status", rec.name))]
  {
    var out := os.Exec(Systemctl("status", rec.name));
    p := ParseStatus(rec.name, out);
  }

  /**
   * Install: guards, then create the unit file, resolve the executable,
   * write the rendered unit, reload systemd and enable the unit. The
   * template is the package-level `systemDConfig`, passed in as a value;
   * every caller uses the default, the embedded `Unit`.
   */
  method Install(rec: Record, os: Os, sfx: Suffixes, args: seq<string>, template: seq<seq<Piece<UnitField>>> := Unit)
    returns (msg: string, err: Option<Error>)
    modifies os
    ensures msg == ActionMessage("Install", rec.description, sfx, err == None)
    ensures var path := ServicePath(rec.name);
      var enable := Systemctl("enable", rec.name);
      var g := Guard(Operation.Install, os.privileged, path in old(os.fs), false);
      if g.Some? then
        err == g && os.fs == old(os.fs) && os.calls == old(os.calls)
      else if os.refuses(Create(path)) then
        err == Some(Failed(Create(path))) && os.fs == old(os.fs) && os.calls == old(os.calls) + [Create(path)]
      else if os.executable.None? then
        err == Some(ExecutableUnresolved) && os.fs == old(os.fs)[path := File("")]
        && os.calls == old(os.calls) + [Create(path)]
      else
        var text := Render(template, UnitValues(rec, os.executable.value, args));
        if os.refuses(Write(path, text)) then
          err == Some(Failed(Write(path, text))) && os.fs == old(os.fs)[path := File("")]
          && os.calls == old(os.calls) + [Create(path), Write(path, text)]
        else
          && os.fs == old(os.fs)[path := File(text)]
          && if !os.command(DaemonReload).ok then
               err == Some(Failed(Exec(DaemonReload)))
               && os.calls == old(os.calls) + [Create(path), Write(path, text), Exec(DaemonReload)]
             else
               && err == (if os.command(enable).ok then None else Some(Failed(Exec(enable))))
               && os.calls == old(os.calls) + [Create(path), Write(path, text), Exec(DaemonReload), Exec(enable)]
  {
    var path := ServicePath(rec.name);
    if !os.privileged {
      return ActionMessage("Install", rec.description, sfx, false), Some(Privileges);
    }
    if os.Exists(path) {
      return ActionMessage("Install", rec.description, sfx, false), Some(AlreadyInstalled);
    }
    var created := os.Create(path);
    if !created {
      return ActionMessage("Install", rec.description, sfx, false), Some(Failed(Create(path)));
    }
    if os.executable.None? {
      return ActionMessage("Install", rec.description, sfx, false), Some(ExecutableUnresolved);
    }
    var text := Render(template, UnitValues(rec, os.executable.value, args));
    var written := os.Write(path, text);
    if !written {
      return ActionMessage("Install", rec.description, sfx, false), Some(Failed(Write(path, text)));
    }
    var reload := os.Exec(DaemonReload);
    if !reload.ok {
      return ActionMessage("Install", rec.description, sfx, false), Some(Failed(Exec(DaemonReload)));
    }
    var enable := os.Exec(Systemctl("enable", rec.name));
    if !enable.ok {
      return ActionMessage("Install", rec.description, sfx, false), Some(Failed(Exec(Systemctl("enable", rec.name))));
    }
    return ActionMessage("Install", rec.description, sfx, true), None;
  }

  /**
   * Remove: guards, then disable the unit, then delete the unit file. When
   * disabling fails the file is left in place.
   */
  method Remove(rec: Record, os: Os, sfx: Suffixes) returns (msg: string, err: Option<Error>)
    modifies os
    ensures msg == ActionMessage("Removing", rec.description, sfx, err == None)
    ensures var path := ServicePath(rec.name);
      var disable := Systemctl("disable", rec.name);
      var g := Guard(Operation.Remove, os.privileged, path in old(os.fs), false);
      if g.Some? then
        err == g && os.fs == old(os.fs) && os.calls == old(os.calls)
      else if !os.command(disable).ok then
        err == Some(Failed(Exec(disable))) && os.fs == old(os.fs) && os.calls == old(os.calls) + [Exec(disable)]
      else if os.refuses(Unlink(path)) then
        err == Some(Failed(Unlink(path))) && os.fs == old(os.fs)
        && os.calls == old(os.calls) + [Exec(disable), Unlink(path)]
      else
        err == None && os.fs == old(os.fs) - {path} && os.calls == old(os.calls) + [Exec(disable), Unlink(path)]
  {
    var path := ServicePath(rec.name);
    if !os.privileged {
      return ActionMessage("Removing", rec.description, sfx, false), Some(Privileges);
    }
    if !os.Exists(path) {
      return ActionMessage("Removing", rec.description, sfx, false), Some(NotInstalled);
    }
    var disable := os.Exec(Systemctl("disable", rec.name));
    if !disable.ok {
      return ActionMessage("Removing", rec.description, sfx, false), Some(Failed(Exec(Systemctl("disable", rec.name))));
    }
    var removed := os.Unlink(path);
    if !removed {
      return ActionMessage("Removing", rec.description, sfx, false), Some(Failed(Unlink(path)));
    }
    return ActionMessage("Removing", rec.description, sfx, true), None;
  }

  /** Start: guards (privilege, installed, not already running), then `systemctl start`. */
  method Start(rec: Record, os: Os, sfx: Suffixes) returns (msg: string, err: Option<Error>)
    modifies os`calls
    ensures msg == ActionMessage("Starting", rec.description, sfx, err == None)
    ensures var installed := ServicePath(rec.name) in os.fs;
      var status := Systemctl("status", rec.name);
      var start := Systemctl("start", rec.name);
      var g := Guard(Operation.Start, os.privileged, installed, ParseStatus(rec.name, os.command(status)).running);
      && err == (if g.Some? then g else if os.command(start).ok then None else Some(Failed(Exec(start))))
      && os.calls == old(os.calls) + (if os.privileged && installed then [Exec(status)] else [])
                                   + (if g.None? then [Exec(start)] else [])
  {
    var start := Systemctl("start", rec.name);
    if !os.privileged {
      return ActionMessage("Starting", rec.description, sfx, false), Some(Privileges);
    }
    if !Installed(rec, os) {
      return ActionMessage("Starting", rec.description, sfx, false), Some(NotInstalled);
    }
    var probe := CheckRunning(rec, os);
    if probe.running {
      return ActionMessage("Starting", rec.description, sfx, false), Some(AlreadyRunning);
    }
    var out := os.Exec(start);
    if !out.ok {
      return ActionMessage("Starting", rec.description, sfx, false), Some(Failed(Exec(start)));
    }
    return ActionMessage("Starting", rec.description, sfx, true), None;
  }

  /** Stop: guards (privilege, installed, running), then `systemctl stop`. */
  method Stop(rec: Record, os: Os, sfx: Suffixes) returns (msg: string, err: Option<Error>)
    modifies os`calls
    ensures msg == ActionMessage("Stopping", rec.description, sfx, err == None)
    ensures var installed := ServicePath(rec.name) in os.fs;
      var status := Systemctl("status", rec.name);
      var stop := Systemctl("stop", rec.name);
      var g := Guard(Operation.Stop, os.privileged, installed, ParseStatus(rec.name, os.command(status)).running);
      && err == (if g.Some? then g else if os.command(stop).ok then None else Some(Failed(Exec(stop))))
      && os.calls == old(os.calls) + (if os.privileged && installed then [Exec(status)] else [])
                                   + (if g.None? then [Exec(stop)] else [])
  {
    var stop := Systemctl("stop", rec.name);
    if !os.privileged {
      return ActionMessage("Stopping", rec.description, sfx, false), Some(Privileges);
    }
    if !Installed(rec, os) {
      return ActionMessage("Stopping", rec.description, sfx, false), Some(NotInstalled);
    }
    var probe := CheckRunning(rec, os);
    if !probe.running {
      return ActionMessage("Stopping", rec.description, sfx, false), Some(AlreadyStopped);
    }
    var out := os.Exec(stop);
    if !out.ok {
      return ActionMessage("Stopping", rec.description, sfx, false), Some(Failed(Exec(stop)));
    }
    return ActionMessage("Stopping", rec.description, sfx, true), None;
  }

  /** Status: guards (privilege, installed); a stopped service is a result, not an error. */
  method Status(rec: Record, os: Os) returns (msg: string, err: Option<Error>)
    modifies os`calls
    ensures var installed := ServicePath(rec.name) in os.fs;
      var status := Systemctl("status", rec.name);
      && err == Guard(Operation.Status, os.privileged, installed, false)
      && msg == (if !os.privileged then ""
                 else if !installed then UndefinedStatus
                 else ParseStatus(rec.name, os.command(status)).message)
      && os.calls == old(os.calls) + (if os.privileged && installed then [Exec(status)] else [])
  {
    if !os.privileged {
      return "", Some(Privileges);
    }
    if !Installed(rec, os) {
      return UndefinedStatus, Some(NotInstalled);
    }
    var probe := CheckRunning(rec, os);
    return probe.message, None;
  }

  /**
   * ExecPath: guards (privilege, installed), then
   * `systemctl execpath <serviceName>.service`, for this service when
   * `serviceName` is empty; the output is returned whether or not the
   * command succeeded.
   */
  method ExecPath(rec: Record, os: Os, serviceName: string) returns (path: string, err: Option<Error>)
    modifies os`calls
    ensures var who := if serviceName == "" then rec.name else serviceName;
      var query := Systemctl("execpath", who);
      var g := Guard(Operation.ExecPath, os.privileged, ServicePath(rec.name) in os.fs, false);
      if g.Some? then
        path == "" && err == g && os.calls == old(os.calls)
      else
        && path == os.command(query).output
        && err == (if os.command(query).ok then None else Some(Failed(Exec(query))))
        && os.calls == old(os.calls) + [Exec(query)]
  {
    if !os.privileged {
      return "", Some(Privileges);
    }
    if !Installed(rec, os) {
      return "", Some(NotInstalled);
    }
    var who := if serviceName == "" then rec.name else serviceName;
    var out := os.Exec(Systemctl("execpath", who));
    path := out.output;
    err := if out.ok then None else Some(Failed(Exec(Systemctl("execpath", who))));
  }

  /** Restart: guards (privilege, installed) only, then `systemctl restart`. */
  method Restart(rec: Record, os: Os, sfx: Suffixes) returns (msg: string, err: Option<Error>)
    modifies os`calls
    ensures msg == ActionMessage("Restarting", rec.description, sfx, err == None)
    ensures var restart := Systemctl("restart", rec.name);
      var g := Guard(Operation.Restart, os.privileged, ServicePath(rec.name) in os.fs, false);
      && err == (if g.Some? then g else if os.command(restart).ok then None else Some(Failed(Exec(restart))))
      && os.calls == old(os.calls) + (if g.None? then [Exec(restart)] else [])
  {
    var restart := Systemctl("restart", rec.name);
    if !os.privileged {
      return ActionMessage("Restarting", rec.description, sfx, false), Some(Privileges);
    }
    if !Installed(rec, os) {
      return ActionMessage("Restarting", rec.description, sfx, false), Some(NotInstalled);
    }
    var out := os.Exec(restart);
    if !out.ok {
      return ActionMessage("Restarting", rec.description, sfx, false), Some(Failed(Exec(restart)));
    }
    return ActionMessage("Restarting", rec.description, sfx, true), None;
  }

  /** Install followed by Remove: when both succeed, the file system is back to what it was. */
  method InstallThenRemove(rec: Record, os: Os, sfx: Suffixes, args: seq<string>)
    returns (installErr: Option<Error>, removeErr: Option<Error>)
    modifies os
    ensures installErr == None && removeErr == None ==> os.fs == old(os.fs)
  {
    var _, e1 := Install(rec, os, sfx, args);
    installErr := e1;
    var _, e2 := Remove(rec, os, sfx);
    removeErr := e2;
  }

  /** Distinct services never share a unit file. */
  lemma ServicePathInjective(a: string, b: string)
    ensures ServicePath(a) == ServicePath(b) ==> a == b
  {
    if ServicePath(a) == ServicePath(b) {
      assert a == ServicePath(a)[20..|ServicePath(a)| - 8];
      assert b == ServicePath(b)[20..|ServicePath(b)| - 8];
    }
  }

  /**
   * A status report that says `Active: active` before its first
   * `Main PID: <digits>` reports the service running, with those digits as
   * its PID.
   */
  lemma ReportsMainPid(name: string, pre: string, pid: string, post: string)
    requires Occurs(pre, "Active: active")
    requires forall j: nat :: j < |pre| ==> !MatchAt(pre + "Main PID: " + (pid + post), "Main PID: ", j)
    requires pid != [] && AllDigits(pid) && (post == [] || !IsDigit(post[0]))
    ensures ParseStatus(name, CmdResult(true, pre + "Main PID: " + (pid + post)))
         == Probe("Service " + name + " (pid  " + pid + ") is running...", true)
  {
    var rest := "Main PID: " + (pid + post);
    OccursExtend("", pre, rest, "Active: active");
    assert "" + pre + rest == pre + "Main PID: " + (pid + post);
    CaptureAfter(pre, "Main PID: ", pid, post);
  }

  /**
   * The rendered unit has the whole line `ExecStart=` followed by the
   * executable and the install arguments, space-joined, and nothing else.
   */
  lemma UnitStartsExecutable(rec: Record, exe: string, args: seq<string>)
    ensures Occurs(UnitText(rec, exe, args), WholeLine("ExecStart=" + Join([exe] + args, " ")))
  {
    RenderHasPrefixedLine(Unit, UnitValues(rec, exe, args), 8, "ExecStart=", Path);
  }

  /**
   * Nothing is lost in the `ExecStart=` command line: when neither the
   * executable nor any argument contains a space, splitting it at spaces
   * gives back exactly the executable and the arguments.
   */
  lemma CommandLineRoundTrip(exe: string, args: seq<string>)
    requires ' ' !in exe && forall k :: 0 <= k < |args| ==> ' ' !in args[k]
    ensures Split(Join([exe] + args, " "), ' ') == [exe] + args
  {
    var argv := [exe] + args;
    forall k | 0 <= k < |argv|
      ensures ' ' !in argv[k]
    {
      if k > 0 {
        assert argv[k] == args[k - 1];
      }
    }
    SplitJoin(argv, ' ');
  }

  /**
   * The rendered unit makes the service require, and start after, its
   * dependencies: it has the whole lines `Requires=` and `After=`, each
   * followed by the dependency list, space-joined, and nothing else; that
   * list splits back into the dependencies when it is not empty and no
   * dependency contains a space.
   */
  lemma UnitOrdersDependencies(rec: Record, exe: string, args: seq<string>)
    ensures Occurs(UnitText(rec, exe, args), WholeLine("Requires=" + Join(rec.dependencies, " ")))
    ensures Occurs(UnitText(rec, exe, args), WholeLine("After=" + Join(rec.dependencies, " ")))
    ensures (|rec.dependencies| > 0 && forall k :: 0 <= k < |rec.dependencies| ==> ' ' !in rec.dependencies[k]) ==>
      Split(Join(rec.dependencies, " "), ' ') == rec.dependencies
  {
    var v := UnitValues(rec, exe, args);
    RenderHasPrefixedLine(Unit, v, 2, "Requires=", Dependencies);
    RenderHasPrefixedLine(Unit, v, 3, "After=", Dependencies);
    if |rec.dependencies| > 0 && forall k :: 0 <= k < |rec.dependencies| ==> ' ' !in rec.dependencies[k] {
      SplitJoin(rec.dependencies, ' ');
    }
  }

  /** The embedded unit template `systemDConfig`, line by line; the empty last line stands for the final newline. */
  const Unit: seq<seq<Piece<UnitField>>> := Lines(16, UnitLine)

  /** Line `k` of the unit template, counting from 0. */
  function UnitLine(k: int): seq<Piece<UnitField>> {
    match k
    case 0 => [Lit("[Unit]")]
    case 1 => [Lit("Description="), Hole(Description)]
    case 2 => [Lit("Requires="), Hole(Dependencies)]
    case 3 => [Lit("After="), Hole(Dependencies)]
    case 4 => []
    case 5 => [Lit("[Service]")]
    case 6 => [Lit("PIDFile=/var/run/"), Hole(Name), Lit(".pid")]
    case 7 => [Lit("ExecStartPre=/bin/rm -f /var/run/"), Hole(Name), Lit(".pid")]
    case 8 => [Lit("ExecStart="), Hole(Path)]
    case 9 => [Lit("Restart=on-abort")]
    case 10 => [Lit("Port="), Hole(Port)]
    case 11 => [Lit("Version="), Hole(Version)]
    case 12 => []
    case 13 => [Lit("[Install]")]
    case 14 => [Lit("WantedBy=multi-user.target")]
    case 15 => []
    case _ => []
  }
}
