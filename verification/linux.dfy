/**
 * Backend selection on Linux: systemd when the host was booted by it,
 * SysV init scripts otherwise.
 */
module Linux {
  import opened Text
  import opened Host
  import opened Daemon

  /** The backend record `newDaemon` hands out. */
  datatype Backend = SystemDRecord(rec: Record) | SystemVRecord(rec: Record)

  /** The directory systemd creates at boot; its presence means systemd manages services. */
  const SystemdMarker := "/run/systemd/system"

  /**
   * `newDaemon`: a systemd record when the marker directory exists on the
   * host, a SysV record otherwise, in both cases carrying the given fields
   * unchanged. Selection never fails.
   */
  function NewDaemon(fs: FileSystem, name: string, port: string, version: string, description: string,
                     dependencies: seq<string>): (r: (Backend, Option<Error>))
    ensures r.1 == None
    ensures r.0.SystemDRecord? <==> SystemdMarker in fs
    ensures r.0.rec == Record(name, port, version, description, dependencies)
  {
    var rec := Record(name, port, version, description, dependencies);
    if SystemdMarker in fs then (SystemDRecord(rec), None) else (SystemVRecord(rec), None)
  }
}
