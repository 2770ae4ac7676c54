/**
 * The SysV init-script backend: the service is an executable script under
 * /etc/init.d, enabled for boot by start links in runlevels 2-5 and kill
 * links in runlevels 0, 1 and 6, and driven through `service <name> <verb>`.
 */
module SystemV {
  import opened Text
  import opened Host
  import opened Template
  import opened Daemon

  /** Where the init script of service `name` lives. */
  function ServicePath(name: string): string {
    "/etc/init.d/" + name
  }

  /** Runlevels that start the service at boot, and those that stop it. */
  const StartLevels: seq<string> := ["2", "3", "4", "5"]
  const KillLevels: seq<string> := ["0", "1", "6"]

  function StartLink(level: string, name: string): string {
    "/etc/rc" + level + ".d/S87" + name
  }

  function KillLink(level: string, name: string): string {
    "/etc/rc" + level + ".d/K17" + name
  }

  function StartLinks(name: string): seq<string> {
    seq(|StartLevels|, i requires 0 <= i < |StartLevels| => StartLink(StartLevels[i], name))
  }

  function KillLinks(name: string): seq<string> {
    seq(|KillLevels|, i requires 0 <= i < |KillLevels| => KillLink(KillLevels[i], name))
  }

  /** The command line `service <name> <verb>`. */
  function Service(name: string, verb: string): seq<string> {
    ["service", name, verb]
  }

  /**
   * The parser half of `checkRunning`, applied to what `service <name> status`
   * reported. The service-name test of the source is a regular-expression
   * match with the name as the pattern; here it is a substring test, which
   * agrees with it for names without regular-expression metacharacters.
   */
  function ParseStatus(name: string, out: CmdResult): (p: Probe)
    ensures p.running <==> out.ok && Occurs(out.output, "running") && Occurs(out.output, name)
    ensures p.running ==> p.message == RunningMessage(name, Capture(out.output, "pid  "))
    ensures !p.running ==> p.message == StoppedMessage(name)
  {
    if out.ok && Contains(out.output, "running") && Contains(out.output, name) then
      Probe(RunningMessage(name, Capture(out.output, "pid  ")), true)
    else
      Probe(StoppedMessage(name), false)
  }

  /** The fields the init-script template is executed with. */
  datatype ScriptField = Name | Port | Version | Description | Path | Args

  function ScriptValues(rec: Record, path: string, args: seq<string>): ScriptField -> string {
    (f: ScriptField) => match f
      case Name => rec.name
      case Port => rec.port
      case Version => rec.version
      case Description => rec.description
      case Path => path
      case Args => Join(args, " ")
  }

  /** The init script Install writes, for executable `path` and extra arguments `args`. */
  function ScriptText(rec: Record, path: string, args: seq<string>): string {
    Render(Script, ScriptValues(rec, path, args))
  }

  /** `isInstalled`: the init script exists. */
  predicate Installed(rec: Record, os: Os)
    reads os
  {
    os.Exists(ServicePath(rec.name))
  }

  /** `checkRunning`: asks `service <name> status` and parses what it reports. */
  method CheckRunning(rec: Record, os: Os) returns (p: Probe)
    modifies os`calls
    ensures p == ParseStatus(rec.name, os.command(Service(rec.name, "status")))
    ensures os.calls == old(os.calls) + [Exec(Service(rec.name, "status"))]
  {
    var out := os.Exec(Service(rec.name, "status"));
    p := ParseStatus(rec.name, out);
  }

  /**
   * The two loops that end Install: link the script as `S87<name>` into the
   * rc directories of runlevels 2-5, then as `K17<name>` into those of 0, 1
   * and 6, skipping every link the host refuses or that already exists.
   */
  method LinkRunlevels(name: string, os: Os, path: string)
    modifies os
    ensures os.fs == SymlinkEach(SymlinkEach(old(os.fs), path, StartLinks(name), os.refuses), path, KillLinks(name), os.refuses)
    ensures os.calls == old(os.calls) + SymlinkCalls(path, StartLinks(name)) + SymlinkCalls(path, KillLinks(name))
  {
    ghost var fs0, calls0 := os.fs, os.calls;
    var starts := StartLinks(name);
    for k := 0 to |StartLevels|
      invariant os.fs == SymlinkEach(fs0, path, starts[..k], os.refuses)
      invariant os.calls == calls0 + SymlinkCalls(path, starts[..k])
    {
      // a refused link is skipped
      var _ := os.Symlink(path, StartLink(StartLevels[k], name));
      assert starts[..k + 1][..k] == starts[..k];
      assert SymlinkCalls(path, starts[..k + 1]) == SymlinkCalls(path, starts[..k]) + [Symlink(path, starts[k])];
    }
    assert starts[..|StartLevels|] == starts;

    ghost var fs1, calls1 := os.fs, os.calls;
    var kills := KillLinks(name);
    for k := 0 to |KillLevels|
      invariant os.fs == SymlinkEach(fs1, path, kills[..k], os.refuses)
      invariant os.calls == calls1 + SymlinkCalls(path, kills[..k])
    {
      var _ := os.Symlink(path, KillLink(KillLevels[k], name));
      assert kills[..k + 1][..k] == kills[..k];
      assert SymlinkCalls(path, kills[..k + 1]) == SymlinkCalls(path, kills[..k]) + [Symlink(path, kills[k])];
    }
    assert kills[..|KillLevels|] == kills;

  }

  /**
   * The two loops that end Remove: try to delete each start link, then each
   * kill link, skipping those that cannot be deleted.
   */
  method UnlinkRunlevels(name: string, os: Os)
    modifies os
    ensures os.fs == UnlinkEach(UnlinkEach(old(os.fs), StartLinks(name), os.refuses), KillLinks(name), os.refuses)
    ensures os.calls == old(os.calls) + UnlinkCalls(StartLinks(name)) + UnlinkCalls(KillLinks(name))
  {
    ghost var fs0, calls0 := os.fs, os.calls;
    var starts := StartLinks(name);
    for k := 0 to |StartLevels|
      invariant os.fs == UnlinkEach(fs0, starts[..k], os.refuses)
      invariant os.calls == calls0 + UnlinkCalls(starts[..k])
    {
      // a link that cannot be deleted is skipped
      var _ := os.Unlink(StartLink(StartLevels[k], name));
      assert starts[..k + 1][..k] == starts[..k];
      assert UnlinkCalls(starts[..k + 1]) == UnlinkCalls(starts[..k]) + [Unlink(starts[k])];
    }
    assert starts[..|StartLevels|] == starts;

    ghost var fs1, calls1 := os.fs, os.calls;
    var kills := KillLinks(name);
    for k := 0 to |KillLevels|
      invariant os.fs == UnlinkEach(fs1, kills[..k], os.refuses)
      invariant os.calls == calls1 + UnlinkCalls(kills[..k])
    {
      var _ := os.Unlink(KillLink(KillLevels[k], name));
      assert kills[..k + 1][..k] == kills[..k];
      assert UnlinkCalls(kills[..k + 1]) == UnlinkCalls(kills[..k]) + [Unlink(kills[k])];
    }
    assert kills[..|KillLevels|] == kills;

  }

  /**
   * Install: guards, then create the script, resolve the executable, write
   * the rendered script, make it executable, and link it into the runlevel
   * directories. A refused link is skipped and does not fail the install.
   * The template is the package-level `systemVConfig`, passed in here so
   * that it is a value this method reads rather than a text it re-derives;
   * every caller uses the default, the embedded `Script`.
   */
  method Install(rec: Record, os: Os, sfx: Suffixes, args: seq<string>, template: seq<seq<Piece<ScriptField>>> := Script)
    returns (msg: string, err: Option<Error>)
    modifies os
    ensures msg == ActionMessage("Install", rec.description, sfx, err == None)
    ensures var path := ServicePath(rec.name);
      var g := Guard(Operation.Install, os.privileged, path in old(os.fs), false);
      if g.Some? then
        err == g && os.fs == old(os.fs) && os.calls == old(os.calls)
      else if os.refuses(Create(path)) then
        err == Some(Failed(Create(path))) && os.fs == old(os.fs) && os.calls == old(os.calls) + [Create(path)]
      else if os.executable.None? then
        err == Some(ExecutableUnresolved) && os.fs == old(os.fs)[path := File("")]
        && os.calls == old(os.calls) + [Create(path)]
      else
        var text := Render(template, ScriptValues(rec, os.executable.value, args));
        if os.refuses(Write(path, text)) then
          err == Some(Failed(Write(path, text))) && os.fs == old(os.fs)[path := File("")]
          && os.calls == old(os.calls) + [Create(path), Write(path, text)]
        else if os.refuses(Chmod(path)) then
          err == Some(Failed(Chmod(path))) && os.fs == old(os.fs)[path := File(text)]
          && os.calls == old(os.calls) + [Create(path), Write(path, text), Chmod(path)]
        else
          && err == None
          && os.fs == SymlinkEach(SymlinkEach(old(os.fs)[path := File(text)], path, StartLinks(rec.name), os.refuses),
                                  path, KillLinks(rec.name), os.refuses)
          && os.calls == old(os.calls) + [Create(path), Write(path, text), Chmod(path)]
                         + SymlinkCalls(path, StartLinks(rec.name)) + SymlinkCalls(path, KillLinks(rec.name))
  {
    var path := ServicePath(rec.name);
    if !os.privileged {
      return ActionMessage("Install", rec.description, sfx, false), Some(Privileges);
    }
    if os.Exists(path) {
      return ActionMessage("Install", rec.description, sfx, false), Some(AlreadyInstalled);
    }
    var created := os.Create(path);
    if !created {
      return ActionMessage("Install", rec.description, sfx, false), Some(Failed(Create(path)));
    }
    if os.executable.None? {
      return ActionMessage("Install", rec.description, sfx, false), Some(ExecutableUnresolved);
    }
    var text := Render(template, ScriptValues(rec, os.executable.value, args));
    var written := os.Write(path, text);
    if !written {
      return ActionMessage("Install", rec.description, sfx, false), Some(Failed(Write(path, text)));
    }
    assert os.fs == old(os.fs)[path := File(text)];
    var executable := os.Chmod(path);
    if !executable {
      return ActionMessage("Install", rec.description, sfx, false), Some(Failed(Chmod(path)));
    }

    LinkRunlevels(rec.name, os, path);
    return ActionMessage("Install", rec.description, sfx, true), None;
  }

  /**
   * Remove: guards, then delete the script, then try to delete each runlevel
   * link, ignoring links that cannot be deleted. When the script itself
   * cannot be deleted, Remove fails at once and leaves the links alone.
   */
  method Remove(rec: Record, os: Os, sfx: Suffixes) returns (msg: string, err: Option<Error>)
    modifies os
    ensures msg == ActionMessage("Removing", rec.description, sfx, err == None)
    ensures var path := ServicePath(rec.name);
      var g := Guard(Operation.Remove, os.privileged, path in old(os.fs), false);
      if g.Some? then
        err == g && os.fs == old(os.fs) && os.calls == old(os.calls)
      else if os.refuses(Unlink(path)) then
        err == Some(Failed(Unlink(path))) && os.fs == old(os.fs) && os.calls == old(os.calls) + [Unlink(path)]
      else
        && err == None
        && os.fs == UnlinkEach(UnlinkEach(old(os.fs) - {path}, StartLinks(rec.name), os.refuses),
                               KillLinks(rec.name), os.refuses)
        && os.calls == old(os.calls) + [Unlink(path)] + UnlinkCalls(StartLinks(rec.name)) + UnlinkCalls(KillLinks(rec.name))
  {
    var path := ServicePath(rec.name);
    if !os.privileged {
      return ActionMessage("Removing", rec.description, sfx, false), Some(Privileges);
    }
    if !os.Exists(path) {
      return ActionMessage("Removing", rec.description, sfx, false), Some(NotInstalled);
    }
    var removed := os.Unlink(path);
    if !removed {
      return ActionMessage("Removing", rec.description, sfx, false), Some(Failed(Unlink(path)));
    }

    UnlinkRunlevels(rec.name, os);
    return ActionMessage("Removing", rec.description, sfx, true), None;
  }

  /** Start: guards (privilege, installed, not already running), then `service <name> start`. */
  method Start(rec: Record, os: Os, sfx: Suffixes) returns (msg: string, err: Option<Error>)
    modifies os`calls
    ensures msg == ActionMessage("Starting", rec.description, sfx, err == None)
    ensures var installed := ServicePath(rec.name) in os.fs;
      var status := Service(rec.name, "status");
      var start := Service(rec.name, "start");
      var g := Guard(Operation.Start, os.privileged, installed, ParseStatus(rec.name, os.command(status)).running);
      && err == (if g.Some? then g else if os.command(start).ok then None else Some(Failed(Exec(start))))
      && os.calls == old(os.calls) + (if os.privileged && installed then [Exec(status)] else [])
                                   + (if g.None? then [Exec(start)] else [])
  {
    var start := Service(rec.name, "start");
    if !os.privileged {
      return ActionMessage("Starting", rec.description, sfx, false), Some(Privileges);
    }
    if !Installed(rec, os) {
      return ActionMessage("Starting", rec.description, sfx, false), Some(NotInstalled);
    }
    var probe := CheckRunning(rec, os);
    if probe.running {
      return ActionMessage("Starting", rec.description, sfx, false), Some(AlreadyRunning);
    }
    var out := os.Exec(start);
    if !out.ok {
      return ActionMessage("Starting", rec.description, sfx, false), Some(Failed(Exec(start)));
    }
    return ActionMessage("Starting", rec.description, sfx, true), None;
  }

  /** Stop: guards (privilege, installed, running), then `service <name> stop`. */
  method Stop(rec: Record, os: Os, sfx: Suffixes) returns (msg: string, err: Option<Error>)
    modifies os`calls
    ensures msg == ActionMessage("Stopping", rec.description, sfx, err == None)
    ensures var installed := ServicePath(rec.name) in os.fs;
      var status := Service(rec.name, "status");
      var stop := Service(rec.name, "stop");
      var g := Guard(Operation.Stop, os.privileged, installed, ParseStatus(rec.name, os.command(status)).running);
      && err == (if g.Some? then g else if os.command(stop).ok then None else Some(Failed(Exec(stop))))
      && os.calls == old(os.calls) + (if os.privileged && installed then [Exec(status)] else [])
                                   + (if g.None? then [Exec(stop)] else [])
  {
    var stop := Service(rec.name, "stop");
    if !os.privileged {
      return ActionMessage("Stopping", rec.description, sfx, false), Some(Privileges);
    }
    if !Installed(rec, os) {
      return ActionMessage("Stopping", rec.description, sfx, false), Some(NotInstalled);
    }
    var probe := CheckRunning(rec, os);
    if !probe.running {
      return ActionMessage("Stopping", rec.description, sfx, false), Some(AlreadyStopped);
    }
    var out := os.Exec(stop);
    if !out.ok {
      return ActionMessage("Stopping", rec.description, sfx, false), Some(Failed(Exec(stop)));
    }
    return ActionMessage("Stopping", rec.description, sfx, true), None;
  }

  /** Status: guards (privilege, installed); a stopped service is a result, not an error. */
  method Status(rec: Record, os: Os) returns (msg: string, err: Option<Error>)
    modifies os`calls
    ensures var installed := ServicePath(rec.name) in os.fs;
      var status := Service(rec.name, "status");
      && err == Guard(Operation.Status, os.privileged, installed, false)
      && msg == (if !os.privileged then ""
                 else if !installed then UndefinedStatus
                 else ParseStatus(rec.name, os.command(status)).message)
      && os.calls == old(os.calls) + (if os.privileged && installed then [Exec(status)] else [])
  {
    if !os.privileged {
      return "", Some(Privileges);
    }
    if !Installed(rec, os) {
      return UndefinedStatus, Some(NotInstalled);
    }
    var probe := CheckRunning(rec, os);
    return probe.message, None;
  }

  /**
   * ExecPath: guards (privilege, installed), then `service <name> execpath`
   * for `serviceName`, or for this service when `serviceName` is empty.
   */
  method ExecPath(rec: Record, os: Os, serviceName: string) returns (path: string, err: Option<Error>)
    modifies os`calls
    ensures var who := if serviceName == "" then rec.name else serviceName;
      var query := Service(who, "execpath");
      var g := Guard(Operation.ExecPath, os.privileged, ServicePath(rec.name) in os.fs, false);
      if g.Some? then
        path == "" && err == g && os.calls == old(os.calls)
      else
        && path == os.command(query).output
        && err == (if os.command(query).ok then None else Some(Failed(Exec(query))))
        && os.calls == old(os.calls) + [Exec(query)]
  {
    if !os.privileged {
      return "", Some(Privileges);
    }
    if !Installed(rec, os) {
      return "", Some(NotInstalled);
    }
    var who := if serviceName == "" then rec.name else serviceName;
    var out := os.Exec(Service(who, "execpath"));
    path := out.output;
    err := if out.ok then None else Some(Failed(Exec(Service(who, "execpath"))));
  }

  /** Restart: guards (privilege, installed) only, then `service <name> restart`. */
  method Restart(rec: Record, os: Os, sfx: Suffixes) returns (msg: string, err: Option<Error>)
    modifies os`calls
    ensures msg == ActionMessage("Restarting", rec.description, sfx, err == None)
    ensures var restart := Service(rec.name, "restart");
      var g := Guard(Operation.Restart, os.privileged, ServicePath(rec.name) in os.fs, false);
      && err == (if g.Some? then g else if os.command(restart).ok then None else Some(Failed(Exec(restart))))
      && os.calls == old(os.calls) + (if g.None? then [Exec(restart)] else [])
  {
    var restart := Service(rec.name, "restart");
    if !os.privileged {
      return ActionMessage("Restarting", rec.description, sfx, false), Some(Privileges);
    }
    if !Installed(rec, os) {
      return ActionMessage("Restarting", rec.description, sfx, false), Some(NotInstalled);
    }
    var out := os.Exec(restart);
    if !out.ok {
      return ActionMessage("Restarting", rec.description, sfx, false), Some(Failed(Exec(restart)));
    }
    return ActionMessage("Restarting", rec.description, sfx, true), None;
  }

  /**
   * Install followed by Remove: when both succeed, none of the runlevel
   * links existed beforehand and none of their removals is refused, the
   * file system is back to what it was.
   */
  method InstallThenRemove(rec: Record, os: Os, sfx: Suffixes, args: seq<string>)
    returns (installErr: Option<Error>, removeErr: Option<Error>)
    modifies os
    ensures installErr == None && removeErr == None
            && (forall l :: l in StartLinks(rec.name) + KillLinks(rec.name) ==> l !in old(os.fs) && !os.refuses(Unlink(l)))
            ==> os.fs == old(os.fs)
  {
    var _, e1 := Install(rec, os, sfx, args);
    installErr := e1;
    var _, e2 := Remove(rec, os, sfx);
    removeErr := e2;
    if installErr == None && removeErr == None
       && forall l :: l in StartLinks(rec.name) + KillLinks(rec.name) ==> l !in old(os.fs) && !os.refuses(Unlink(l))
    {
      RemoveUndoesInstall(old(os.fs), rec.name, ScriptText(rec, os.executable.value, args), os.refuses);
    }
  }

  /** Distinct services never share an init script. */
  lemma ServicePathInjective(a: string, b: string)
    ensures ServicePath(a) == ServicePath(b) ==> a == b
  {
    if ServicePath(a) == ServicePath(b) {
      assert a == ServicePath(a)[12..];
      assert b == ServicePath(b)[12..];
    }
  }

  /**
   * The seven runlevel links of a service are seven different paths, none of
   * them the init script itself: the runlevel digit after `/etc/rc` tells
   * them apart, and the script lives under `/etc/init.d`.
   */
  lemma {:induction false} RunlevelLinksDistinct(name: string)
    ensures var links := StartLinks(name) + KillLinks(name);
      && |links| == 7
      && (forall i, j :: 0 <= i < j < |links| ==> links[i] != links[j])
      && ServicePath(name) !in links
  {
    var links := StartLinks(name) + KillLinks(name);
    var levels := StartLevels + KillLevels;
    forall i | 0 <= i < |links|
      ensures |links[i]| > 7 && links[i][7] == levels[i][0] && links[i][5] == 'r'
    {
      if i < |StartLevels| {
        assert links[i] == "/etc/rc" + StartLevels[i] + ".d/S87" + name;
      } else {
        assert links[i] == "/etc/rc" + KillLevels[i - |StartLevels|] + ".d/K17" + name;
      }
    }
    assert ServicePath(name)[5] == 'i';
  }

  /**
   * A successful Remove undoes a successful Install: from a file system
   * without the script and without any of its runlevel links, writing the
   * script and linking it, then deleting the script and unlinking, gives the
   * original file system back, as long as no link removal is refused.
   * Links the host refused to create are simply not there to remove.
   */
  lemma {:induction false} RemoveUndoesInstall(fs: FileSystem, name: string, text: string, refuses: Call -> bool)
    requires ServicePath(name) !in fs
    requires forall l :: l in StartLinks(name) + KillLinks(name) ==> l !in fs && !refuses(Unlink(l))
    ensures var path := ServicePath(name);
      var installed := SymlinkEach(SymlinkEach(fs[path := File(text)], path, StartLinks(name), refuses),
                                   path, KillLinks(name), refuses);
      UnlinkEach(UnlinkEach(installed - {path}, StartLinks(name), refuses), KillLinks(name), refuses) == fs
  {
    var path := ServicePath(name);
    var starts, kills := StartLinks(name), KillLinks(name);
    RunlevelLinksDistinct(name);
    assert forall l :: l in starts + kills <==> l in starts || l in kills;
    var fs1 := fs[path := File(text)];
    var fs2 := SymlinkEach(fs1, path, starts, refuses);
    var fs3 := SymlinkEach(fs2, path, kills, refuses);
    var fs4 := fs3 - {path};
    var fs5 := UnlinkEach(fs4, starts, refuses);
    var fs6 := UnlinkEach(fs5, kills, refuses);
    forall p
      ensures p in fs6 <==> p in fs
      ensures p in fs6 ==> fs6[p] == fs[p]
    {
      SymlinkEachEffect(fs1, path, starts, refuses, p);
      SymlinkEachEffect(fs2, path, kills, refuses, p);
      UnlinkEachEffect(fs4, starts, refuses, p);
      UnlinkEachEffect(fs5, kills, refuses, p);
    }
  }

  /** What the installed script's `rh_status` prints for a running service: its description (`servname`), not its name. */
  function RunningReport(description: string, pid: string): string {
    description + " is running [pid  " + pid + "]\n"
  }

  /**
   * Reading the script's own report of a running service: the service
   * counts as running exactly when its name occurs in the report.
   */
  lemma RunningReportNeedsName(name: string, description: string, pid: string)
    ensures ParseStatus(name, CmdResult(true, RunningReport(description, pid))).running
        <==> Occurs(RunningReport(description, pid), name)
  {
    OccursInside(description + " is ", "running", " [pid  " + pid + "]\n");
    assert description + " is " + "running" + (" [pid  " + pid + "]\n") == RunningReport(description, pid);
  }

  /**
   * When the script's report is read as running, the message carries the
   * reported PID, provided no `pid  <digits>` match starts inside the
   * description.
   */
  lemma RunningReportPid(name: string, description: string, pid: string)
    requires pid != [] && AllDigits(pid)
    requires forall j: nat :: j < |description| ==> !MatchAt(RunningReport(description, pid), "pid  ", j)
    ensures var p := ParseStatus(name, CmdResult(true, RunningReport(description, pid)));
      p.running ==> p.message == "Service " + name + " (pid  " + pid + ") is running..."
  {
    var pre := description + " is running [";
    var s := RunningReport(description, pid);
    assert s == pre + "pid  " + (pid + "]\n");
    forall j: nat | |description| <= j < |pre|
      ensures !MatchAt(s, "pid  ", j)
    {
      assert s[j] == pre[j] == " is running ["[j - |description|];
    }
    CaptureAfter(pre, "pid  ", pid, "]\n");
  }

  /**
   * The status check looks for the service name, but the script reports the
   * description: a service named `foo` described as `Foo Service` reads as
   * stopped even while its script reports it running.
   */
  lemma RunningReportWithoutName()
    ensures !ParseStatus("foo", CmdResult(true, RunningReport("Foo Service", "42"))).running
  {
    AbsentHead(RunningReport("Foo Service", "42"), "foo");
  }

  /**
   * The rendered script identifies the service by the record: `proc` (the
   * name its pid, lock and log files are derived from) is the service name,
   * and `servname` (what it prints in status reports) is the description.
   */
  lemma ScriptIdentifiesService(rec: Record, exe: string, args: seq<string>)
    ensures var text := ScriptText(rec, exe, args);
      && Occurs(text, WholeLine("proc=\"" + rec.name + "\""))
      && Occurs(text, WholeLine("servname=\"" + rec.description + "\""))
  {
    var v := ScriptValues(rec, exe, args);
    RenderHasFilledLine(Script, v, 31, "proc=\"", Name, "\"");
    RenderHasFilledLine(Script, v, 27, "servname=\"", Description, "\"");
  }

  /** The rendered script binds `port` and `version` to the record's. */
  lemma ScriptCarriesPortAndVersion(rec: Record, exe: string, args: seq<string>)
    ensures var text := ScriptText(rec, exe, args);
      && Occurs(text, WholeLine("port=\"" + rec.port + "\""))
      && Occurs(text, WholeLine("version=\"" + rec.version + "\""))
  {
    var v := ScriptValues(rec, exe, args);
    RenderHasFilledLine(Script, v, 28, "port=\"", Port, "\"");
    RenderHasFilledLine(Script, v, 29, "version=\"", Version, "\"");
  }

  /**
   * The rendered script runs the installing executable: `exec` is bound to
   * its path, and the `start` function launches `$exec` followed by the
   * install arguments, space-joined.
   */
  lemma ScriptRunsExecutable(rec: Record, exe: string, args: seq<string>)
    ensures var text := ScriptText(rec, exe, args);
      && Occurs(text, WholeLine("exec=\"" + exe + "\""))
      && Occurs(text, WholeLine("        $exec " + Join(args, " ") + " >> $stdoutlog 2>> $stderrlog &"))
  {
    var v := ScriptValues(rec, exe, args);
    RenderHasFilledLine(Script, v, 26, "exec=\"", Path, "\"");
    RenderHasFilledLine(Script, v, 78, "        $exec ", Args, " >> $stdoutlog 2>> $stderrlog &");
  }

  /** The number of lines of the init-script template; the last, empty, one stands for the final newline. */
  const ScriptLength := 194

  /** The embedded init-script template `systemVConfig`, line by line. */
  const Script: seq<seq<Piece<ScriptField>>> := Lines(ScriptLength, ScriptLine)

  /** Line `k` of the init-script template, counting from 0. */
  function ScriptLine(k: int): seq<Piece<ScriptField>> {
    if k < 37 then HeaderLine(k)
    else if k < 60 then PreludeLine(k)
    else if k < 98 then StartFunctionLine(k)
    else if k < 124 then StopFunctionLine(k)
    else if k < 163 then StatusFunctionLine(k)
    else DispatchLine(k)
  }

  /** Lines 0-36: the comment header and the shell variables. */
  function HeaderLine(k: int): seq<Piece<ScriptField>> {
    match k
    case 0 => [Lit("#! /bin/sh")]
    case 1 => [Lit("#")]
    case 2 => [Lit("#       /etc/rc.d/init.d/"), Hole(Name)]
    case 3 => [Lit("#")]
    case 4 => [Lit("#       Starts "), Hole(Name), Lit(" as a daemon")]
    case 5 => [Lit("#")]
    case 6 => [Lit("# chkconfig: 2345 87 17")]
    case 7 => [Lit("# description: Starts and stops a single "), Hole(Name), Lit(" instance on this system")]
    case 8 => []
    case 9 => [Lit("### BEGIN INIT INFO")]
    case 10 => [Lit("# Provides: "), Hole(Name), Lit(" ")]
    case 11 => [Lit("# Required-Start: $network $named")]
    case 12 => [Lit("# Required-Stop: $network $named")]
    case 13 => [Lit("# Default-Start: 2 3 4 5")]
    case 14 => [Lit("# Default-Stop: 0 1 6")]
    case 15 => [Lit("# Short-Description: This service manages the "), Hole(Description), Lit(".")]
    case 16 => [Lit("# Description: "), Hole(Description)]
    case 17 => [Lit("### END INIT INFO")]
    case 18 => []
    case 19 => [Lit("#")]
    case 20 => [Lit("# Source function library.")]
    case 21 => [Lit("#")]
    case 22 => [Lit("if [ -f /etc/rc.d/init.d/functions ]; then")]
    case 23 => [Lit("    . /etc/rc.d/init.d/functions")]
    case 24 => [Lit("fi")]
    case 25 => []
    case 26 => [Lit("exec=\""), Hole(Path), Lit("\"")]
    case 27 => [Lit("servname=\""), Hole(Description), Lit("\"")]
    case 28 => [Lit("port=\""), Hole(Port), Lit("\"")]
    case 29 => [Lit("version=\""), Hole(Version), Lit("\"")]
    case 30 => []
    case 31 => [Lit("proc=\""), Hole(Name), Lit("\"")]
    case 32 => [Lit("pidfile=\"/var/run/$proc.pid\"")]
    case 33 => [Lit("lockfile=\"/var/lock/subsys/$proc\"")]
    case 34 => [Lit("stdoutlog=\"/var/log/$proc.log\"")]
    case 35 => [Lit("stderrlog=\"/var/log/$proc.err\"")]
    case 36 => []
    case _ => []
  }

  /** Lines 37-59: the privilege check and the set-up run on every invocation. */
  function PreludeLine(k: int): seq<Piece<ScriptField>> {
    match k
    case 37 => [Lit("privilegeCheck() {")]
    case 38 => [Lit("    testFile=\"/var/tmp/${proc}_testPriv.t\"")]
    case 39 => [Lit("    touch $testFile")]
    case 40 => [Lit("    chown root:root $testFile 2>/dev/null")]
    case 41 => [Lit("    if [ $? != 0 ]; then")]
    case 42 => [Lit("        rm -f $testFile")]
    case 43 => [Lit("        echo \"Error:  You must have root user privileges. Possibly using 'sudo' command should help\"")]
    case 44 => [Lit("        exit 1")]
    case 45 => [Lit("    fi")]
    case 46 => [Lit("    rm -f $testFile")]
    case 47 => [Lit("    if [ $? != 0 ]; then")]
    case 48 => [Lit("        echo \"Error:  You must have root user privileges. Possibly using 'sudo' command should help\"")]
    case 49 => [Lit("        exit 1")]
    case 50 => [Lit("    fi")]
    case 51 => [Lit("}")]
    case 52 => []
    case 53 => [Lit("# root or sudo command")]
    case 54 => [Lit("privilegeCheck")]
    case 55 => []
    case 56 => [Lit("[ -d $(dirname $lockfile) ] || mkdir -p $(dirname $lockfile)")]
    case 57 => []
    case 58 => [Lit("[ -e /etc/sysconfig/$proc ] && . /etc/sysconfig/$proc")]
    case 59 => []
    case _ => []
  }

  /** Lines 60-97: the `start` function. */
  function StartFunctionLine(k: int): seq<Piece<ScriptField>> {
    match k
    case 60 => [Lit("start() {")]
    case 61 => [Lit("    [ -x $exec ] || exit 5")]
    case 62 => []
    case 63 => [Lit("    if [ -f $pidfile ]; then")]
    case 64 => [Lit("        if ! [ -d \"/proc/$(cat $pidfile)\" ]; then")]
    case 65 => [Lit("            rm $pidfile")]
    case 66 => [Lit("            if [ -f $lockfile ]; then")]
    case 67 => [Lit("                rm $lockfile")]
    case 68 => [Lit("            fi")]
    case 69 => [Lit("        fi")]
    case 70 => [Lit("    fi")]
    case 71 => []
    case 72 => [Lit("    if ! [ -f $pidfile ]; then")]
    case 73 => [Lit("        printf \"Starting $servname:\\t\"")]
    case 74 => [Lit("        if [ $? != 0 ]; then")]
    case 75 => [Lit("            echo -n \"Starting $servname:     \"")]
    case 76 => [Lit("        fi")]
    case 77 => [Lit("        echo \"$(date)\" >> $stdoutlog")]
    case 78 => [Lit("        $exec "), Hole(Args), Lit(" >> $stdoutlog 2>> $stderrlog &")]
    case 79 => [Lit("        echo $! > $pidfile")]
    case 80 => [Lit("        touch $lockfile")]
    case 81 => [Lit("        success 2>/dev/null")]
    case 82 => [Lit("        if [ $? != 0 ]; then")]
    case 83 => [Lit("            echo \"[ OK ]\"")]
    case 84 => [Lit("        else")]
    case 85 => [Lit("            echo")]
    case 86 => [Lit("        fi")]
    case 87 => [Lit("    else")]
    case 88 => [Lit("        # failure")]
    case 89 => [Lit("        echo")]
    case 90 => [Lit("        printf \"$pidfile still exists...\\n\"")]
    case 91 => [Lit("        if [ $? != 0 ]; then")]
    case 92 => [Lit("            echo \"$pidfile still exists...\"")]
    case 93 => [Lit("        fi")]
    case 94 => [Lit("        exit 7")]
    case 95 => [Lit("    fi")]
    case 96 => [Lit("}")]
    case 97 => []
    case _ => []
  }

  /** Lines 98-123: the `stop` function. */
  function StopFunctionLine(k: int): seq<Piece<ScriptField>> {
    match k
    case 98 => [Lit("stop() {")]
    case 99 => [Lit("    printf \"Stopping $servname:\\t\"")]
    case 100 => [Lit("    if [ $? != 0 ]; then")]
    case 101 => [Lit("        echo -n \"Stopping $servname:     \"")]
    case 102 => [Lit("    fi")]
    case 103 => [Lit("    kill -9 $(cat $pidfile) && rm -f $pidfile")]
    case 104 => [Lit("    retval=$?")]
    case 105 => [Lit("    [ $retval -eq 0 ] && rm -f $lockfile")]
    case 106 => [Lit("    if [ $? != 0 ]; then")]
    case 107 => [Lit("        failure 2>/dev/null")]
    case 108 => [Lit("        if [ $? != 0 ]; then")]
    case 109 => [Lit("            echo \"[ FAILED ]\"")]
    case 110 => [Lit("        else")]
    case 111 => [Lit("            echo")]
    case 112 => [Lit("        fi")]
    case 113 => [Lit("    else")]
    case 114 => [Lit("        success 2>/dev/null")]
    case 115 => [Lit("        if [ $? != 0 ]; then")]
    case 116 => [Lit("            echo \"[ OK ]\"")]
    case 117 => [Lit("        else")]
    case 118 => [Lit("            echo")]
    case 119 => [Lit("        fi")]
    case 120 => [Lit("    fi")]
    case 121 => [Lit("    return $retval")]
    case 122 => [Lit("}")]
    case 123 => []
    case _ => []
  }

  /** Lines 124-162: the `clear`, `restart`, `rh_status` and `rh_status_q` functions. */
  function StatusFunctionLine(k: int): seq<Piece<ScriptField>> {
    match k
    case 124 => [Lit("clear() {")]
    case 125 => [Lit("    rm -f $pidfile")]
    case 126 => [Lit("    rm -f $lockfile")]
    case 127 => [Lit("}")]
    case 128 => []
    case 129 => [Lit("restart() {")]
    case 130 => [Lit("    stop >/dev/null 2>/dev/null")]
    case 131 => [Lit("    start")]
    case 132 => [Lit("}")]
    case 133 => []
    case 134 => [Lit("rh_status() {")]
    case 135 => [Lit("        pidCmd=$(lsof -i${port} | awk '{print $2;}' | sed -n 2p)")]
    case 136 => [Lit("        if [ ! -f \"$pidfile\" ] && [ -z \"$pidCmd\" ]; then")]
    case 137 => [Lit("            echo \"$servname is stopped\";")]
    case 138 => [Lit("            return 1;")]
    case 139 => [Lit("        fi")]
    case 140 => [Lit("        pid=$(cat $pidfile);")]
    case 141 => [Lit("        if [ \"$pidCmd\" != \"$pid\" ]; then")]
    case 142 => [Lit("            if [ ! -z \"$pid\" ]; then")]
    case 143 => [Lit("                kill -9 $pid")]
    case 144 => [Lit("            fi")]
    case 145 => [Lit("            if [ ! -z \"$pidCmd\" ]; then")]
    case 146 => [Lit("                echo \"$pidCmd\" > \"$pidfile\";")]
    case 147 => [Lit("                touch $lockfile")]
    case 148 => [Lit("                echo \"$servname is running [pid  $(cat $pidfile)]\";")]
    case 149 => [Lit("                return 0;")]
    case 150 => [Lit("            fi")]
    case 151 => [Lit("            clear")]
    case 152 => [Lit("            echo \"$servname is stopped\";")]
    case 153 => [Lit("            return 1;")]
    case 154 => [Lit("        fi")]
    case 155 => [Lit("        echo \"$servname is running [pid  $pid]\";")]
    case 156 => [Lit("        return 0;")]
    case 157 => [Lit("}")]
    case 158 => []
    case 159 => [Lit("rh_status_q() {")]
    case 160 => [Lit("    rh_status >/dev/null 2>&1")]
    case 161 => [Lit("}")]
    case 162 => []
    case _ => []
  }

  /** Lines 163-193: the dispatch on the first argument. */
  function DispatchLine(k: int): seq<Piece<ScriptField>> {
    match k
    case 163 => [Lit("case \"$1\" in")]
    case 164 => [Lit("    start)")]
    case 165 => [Lit("        rh_status_q && exit 0")]
    case 166 => [Lit("        $1")]
    case 167 => [Lit("        ;;")]
    case 168 => [Lit("    stop)")]
    case 169 => [Lit("        rh_status_q || exit 0")]
    case 170 => [Lit("        $1")]
    case 171 => [Lit("        ;;")]
    case 172 => [Lit("    restart)")]
    case 173 => [Lit("        $1")]
    case 174 => [Lit("        ;;")]
    case 175 => [Lit("    status)")]
    case 176 => [Lit("        rh_status")]
    case 177 => [Lit("        ;;")]
    case 178 => [Lit("    version)")]
    case 179 => [Lit("        echo $version")]
    case 180 => [Lit("        ;;")]
    case 181 => [Lit("    description)")]
    case 182 => [Lit("        echo $servname")]
    case 183 => [Lit("        ;;")]
    case 184 => [Lit("    execpath)")]
    case 185 => [Lit("        echo $exec")]
    case 186 => [Lit("        ;;")]
    case 187 => [Lit("    *)")]
    case 188 => [Lit("        echo \"Usage: $0 {start|stop|status|restart|version|description|execpath}\"")]
    case 189 => [Lit("        exit 2")]
    case 190 => [Lit("esac")]
    case 191 => []
    case 192 => [Lit("exit $?")]
    case 193 => []
    case _ => []
  }
}
