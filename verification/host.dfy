/**
 * The operating system as the service-control layer sees it: a file system
 * of paths (regular files with their text, and symbolic links with their
 * target), a log, in order, of every call that can change the file system
 * and of every command run (existence probes are reads and are not logged),
 * and oracles for what the host decides on its own: whether the caller is
 * privileged, where the running executable lives, which calls it refuses,
 * and what each native command prints and whether it succeeds.
 */
module Host {
  import opened Text

  datatype Node = File(text: string) | Link(target: string)

  /** One call into the host: a file-system operation or a native command. */
  datatype Call =
    | Create(path: string)
    | Write(path: string, text: string)
    | Chmod(path: string)
    | Symlink(target: string, link: string)
    | Unlink(path: string)
    | Exec(argv: seq<string>)

  /** What a native command reports: whether it exited cleanly, and its standard output. */
  datatype CmdResult = CmdResult(ok: bool, output: string)

  type FileSystem = map<string, Node>

  /** `os.Symlink`: succeeds, adding the link, unless the link path exists or the host refuses. */
  function SymlinkStep(fs: FileSystem, target: string, link: string, refuses: Call -> bool): FileSystem {
    if link !in fs && !refuses(Symlink(target, link)) then fs[link := Link(target)] else fs
  }

  /** `os.Remove`: succeeds, dropping the path, unless it is absent or the host refuses. */
  function UnlinkStep(fs: FileSystem, path: string, refuses: Call -> bool): FileSystem {
    if path in fs && !refuses(Unlink(path)) then fs - {path} else fs
  }

  /** The file system after trying `os.Symlink(target, l)` for each `l` of `links` in turn, ignoring failures. */
  function SymlinkEach(fs: FileSystem, target: string, links: seq<string>, refuses: Call -> bool): FileSystem
    decreases |links|
  {
    if links == [] then fs
    else SymlinkStep(SymlinkEach(fs, target, links[..|links| - 1], refuses), target, links[|links| - 1], refuses)
  }

  /** The file system after trying `os.Remove(l)` for each `l` of `links` in turn, ignoring failures. */
  function UnlinkEach(fs: FileSystem, links: seq<string>, refuses: Call -> bool): FileSystem
    decreases |links|
  {
    if links == [] then fs
    else UnlinkStep(UnlinkEach(fs, links[..|links| - 1], refuses), links[|links| - 1], refuses)
  }

  /** The calls issued by trying `os.Symlink(target, l)` for each `l` of `links`. */
  function SymlinkCalls(target: string, links: seq<string>): seq<Call> {
    seq(|links|, i requires 0 <= i < |links| => Symlink(target, links[i]))
  }

  /** The calls issued by trying `os.Remove(l)` for each `l` of `links`. */
  function UnlinkCalls(links: seq<string>): seq<Call> {
    seq(|links|, i requires 0 <= i < |links| => Unlink(links[i]))
  }

  /**
   * What best-effort linking leaves behind, path by path: a path that existed
   * is untouched; a listed path that did not exist is now a link to `target`
   * unless the host refused it; nothing else appears.
   */
  lemma {:induction false} SymlinkEachEffect(fs: FileSystem, target: string, links: seq<string>, refuses: Call -> bool, p: string)
    ensures var r := SymlinkEach(fs, target, links, refuses);
      && (p in fs ==> p in r && r[p] == fs[p])
      && (p !in fs && p !in links ==> p !in r)
      && (p !in fs && p in links ==> (p in r <==> !refuses(Symlink(target, p))))
      && (p in r ==> p in fs || r[p] == Link(target))
    decreases |links|
  {
    if links != [] {
      var init := links[..|links| - 1];
      SymlinkEachEffect(fs, target, init, refuses, p);
      assert links == init + [links[|links| - 1]];
    }
  }

  /**
   * What best-effort unlinking leaves behind, path by path: a listed path is
   * gone unless the host refused to remove it; every other path is untouched.
   */
  lemma {:induction false} UnlinkEachEffect(fs: FileSystem, links: seq<string>, refuses: Call -> bool, p: string)
    ensures var r := UnlinkEach(fs, links, refuses);
      && (p !in links ==> (p in r <==> p in fs) && (p in r ==> r[p] == fs[p]))
      && (p in links ==> (p in r <==> p in fs && refuses(Unlink(p))))
      && (p in r ==> r[p] == fs[p])
    decreases |links|
  {
    if links != [] {
      var init := links[..|links| - 1];
      UnlinkEachEffect(fs, init, refuses, p);
      assert links == init + [links[|links| - 1]];
    }
  }

  /**
   * Unlinking undoes linking: starting from a file system where none of the
   * links exists, linking them all to `target` and then removing them all,
   * with no removal refused, gives back the original file system.
   */
  lemma SymlinkThenUnlink(fs: FileSystem, target: string, links: seq<string>, refuses: Call -> bool)
    requires forall l :: l in links ==> l !in fs && !refuses(Unlink(l))
    ensures UnlinkEach(SymlinkEach(fs, target, links, refuses), links, refuses) == fs
  {
    var mid := SymlinkEach(fs, target, links, refuses);
    var r := UnlinkEach(mid, links, refuses);
    forall p
      ensures p in r <==> p in fs
      ensures p in r ==> r[p] == fs[p]
    {
      SymlinkEachEffect(fs, target, links, refuses, p);
      UnlinkEachEffect(mid, links, refuses, p);
    }
  }

  /** The host, whose file system and call log change as the service layer works on it. */
  class Os {
    var fs: FileSystem
    var calls: seq<Call>
    /** The outcome of the privilege check (root, or an equivalent right). */
    const privileged: bool
    /** The resolved path of the running executable, or None when it cannot be resolved. */
    const executable: Option<string>
    /** Which file-system calls the host refuses for reasons of its own (permissions, I/O). */
    const refuses: Call -> bool
    /** What each native command reports. */
    const command: seq<string> -> CmdResult

    constructor (fs: FileSystem, privileged: bool, executable: Option<string>,
                 refuses: Call -> bool, command: seq<string> -> CmdResult)
      ensures this.fs == fs && calls == []
      ensures this.privileged == privileged && this.executable == executable
      ensures this.refuses == refuses && this.command == command
    {
      this.fs := fs;
      this.calls := [];
      this.privileged := privileged;
      this.executable := executable;
      this.refuses := refuses;
      this.command := command;
    }

    /**
     * The existence test `os.Stat` stands for, taken as membership of the
     * map: a symbolic link counts as existing whether or not its target does.
     */
    predicate Exists(path: string)
      reads this
    {
      path in fs
    }

    /** `exec.Command(argv...).Output()`: runs the command and reports what it printed. */
    method Exec(argv: seq<string>) returns (r: CmdResult)
      modifies this`calls
      ensures r == command(argv)
      ensures calls == old(calls) + [Call.Exec(argv)]
    {
      r := command(argv);
      calls := calls + [Call.Exec(argv)];
    }

    /** `os.Create`: creates (or truncates) the file. */
    method Create(path: string) returns (ok: bool)
      modifies this
      ensures ok == !refuses(Call.Create(path))
      ensures fs == if ok then old(fs)[path := File("")] else old(fs)
      ensures calls == old(calls) + [Call.Create(path)]
    {
      ok := !refuses(Call.Create(path));
      if ok {
        fs := fs[path := File("")];
      }
      calls := calls + [Call.Create(path)];
    }

    /** Writes the whole text of an existing regular file. */
    method Write(path: string, text: string) returns (ok: bool)
      modifies this
      ensures ok == (path in old(fs) && old(fs)[path].File? && !refuses(Call.Write(path, text)))
      ensures fs == if ok then old(fs)[path := File(text)] else old(fs)
      ensures calls == old(calls) + [Call.Write(path, text)]
    {
      ok := path in fs && fs[path].File? && !refuses(Call.Write(path, text));
      if ok {
        fs := fs[path := File(text)];
      }
      calls := calls + [Call.Write(path, text)];
    }

    /** `os.Chmod`: file modes are not modelled, so only its failure matters. */
    method Chmod(path: string) returns (ok: bool)
      modifies this`calls
      ensures ok == (path in fs && !refuses(Call.Chmod(path)))
      ensures calls == old(calls) + [Call.Chmod(path)]
    {
      ok := path in fs && !refuses(Call.Chmod(path));
      calls := calls + [Call.Chmod(path)];
    }

    /** `os.Symlink(target, link)`. */
    method Symlink(target: string, link: string) returns (ok: bool)
      modifies this
      ensures ok == (link !in old(fs) && !refuses(Call.Symlink(target, link)))
      ensures fs == SymlinkStep(old(fs), target, link, refuses)
      ensures calls == old(calls) + [Call.Symlink(target, link)]
    {
      ok := link !in fs && !refuses(Call.Symlink(target, link));
      fs := SymlinkStep(fs, target, link, refuses);
      calls := calls + [Call.Symlink(target, link)];
    }

    /** `os.Remove(path)`. */
    method Unlink(path: string) returns (ok: bool)
      modifies this
      ensures ok == (path in old(fs) && !refuses(Call.Unlink(path)))
      ensures fs == UnlinkStep(old(fs), path, refuses)
      ensures calls == old(calls) + [Call.Unlink(path)]
    {
      ok := path in fs && !refuses(Call.Unlink(path));
      fs := UnlinkStep(fs, path, refuses);
      calls := calls + [Call.Unlink(path)];
    }
  }
}
