/** The per-route configuration row and the abstract remote-shell step (main.go, `ConfigPath`
    and the SSH calls of the route handler). */
module Config {

  datatype Option<T> = None | Some(value: T)

  /** One row of `path_mapping`, as the handler fetches it for each request. */
  datatype ConfigPath = ConfigPath(
    tokenType: string,
    tokenValue: string,
    sshAuthorizeType: string,
    sshAuthorizeValue: string,
    sshHost: string,
    sshPort: string,
    sshUser: string,
    sshCommand: string)

  /** What the handler asks of the remote shell: dial `address` as `user` with password
      authentication and run `command` in one session. */
  datatype SshRequest = SshRequest(address: string, user: string, password: string, command: string)

  /** What the remote shell reports back: the dial failed, the session could not be opened,
      the command ran and returned an error, or the command ran and returned none. The
      captured streams are kept whichever way the run ended. */
  datatype RemoteOutcome =
    | DialFailed
    | SessionFailed
    | RunFailed(stdout: string, stderr: string)
    | Ran(stdout: string, stderr: string)

  /** The SSH client and the remote host, seen from the handler: a black box. */
  type Remote = SshRequest -> RemoteOutcome

  /** The request built from the route's configuration: `host:port`, the user, the password
      credential and the configured command, verbatim. */
  function SshRequestOf(config: ConfigPath): (r: SshRequest)
    // The target is `host:port`: the host, one colon, then the port.
    ensures |r.address| == |config.sshHost| + 1 + |config.sshPort|
    ensures r.address[..|config.sshHost|] == config.sshHost && r.address[|config.sshHost|] == ':'
    ensures r.address[|config.sshHost| + 1..] == config.sshPort
    // Identity, credential and command come from the row unchanged; nothing else is used.
    ensures r.user == config.sshUser && r.password == config.sshAuthorizeValue
    ensures r.command == config.sshCommand
  {
    SshRequest(config.sshHost + ":" + config.sshPort, config.sshUser, config.sshAuthorizeValue, config.sshCommand)
  }
}
