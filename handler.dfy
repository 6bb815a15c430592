/** The per-request pipeline of the route handler (main.go, the closure registered for each
    route): the authorization gate, the SSH-mode gate, the remote command and the mapping of
    its outcome to a reply. The configuration row and the remote shell are inputs. */
module Handler {
  import opened Responses
  import opened Config
  import opened Authorization

  /** The end of one request: a reply, and the remote request that was issued (None when the
      handler never dialed), or a panic that leaves the caller without a reply. */
  datatype Decision = Respond(reply: Reply, dialed: Option<SshRequest>) | Crash

  /** The outcome mapping after `session.Run`: connect and session failures, a failed run,
      and a successful run whose non-empty stderr is reported in place of stdout. */
  function OutcomeReply(outcome: RemoteOutcome): (r: Reply)
    ensures WellFormed(r)
    // The command's output is reported exactly when the command ran without error.
    ensures !IsFailure(r) <==> outcome.Ran?
    ensures outcome.DialFailed? || outcome.SessionFailed? ==> r == SshFailed()
    // A failed run never reports what it printed.
    ensures outcome.RunFailed? ==> r == FailedExecute()
    ensures outcome.Ran? && outcome.stderr != "" ==> r.body.message == outcome.stderr
    ensures outcome.Ran? && outcome.stderr == "" ==> r.body.message == outcome.stdout
  {
    match outcome
    case DialFailed => SshFailed()
    case SessionFailed => SshFailed()
    case RunFailed(_, _) => FailedExecute()
    case Ran(stdout, stderr) =>
      if stderr != "" then Success(stderr) else Success(stdout)
  }

  /** Everything after the authorization gate: the `private_key` mode is not implemented and
      never dials; any other mode dials with a password and runs the configured command. */
  function Execute(config: ConfigPath, remote: Remote): (d: Decision)
    ensures d.Respond? && WellFormed(d.reply)
    ensures config.sshAuthorizeType == "private_key" ==> d == Respond(NotImplement(), None)
    // Password mode issues exactly one request: the configured target and command, verbatim.
    ensures config.sshAuthorizeType != "private_key" ==>
      d.dialed == Some(SshRequestOf(config)) && d.dialed.value.command == config.sshCommand &&
      d.reply == OutcomeReply(remote(SshRequestOf(config)))
  {
    if config.sshAuthorizeType == "private_key" then
      Respond(NotImplement(), None)
    else
      var request := SshRequestOf(config);
      Respond(OutcomeReply(remote(request)), Some(request))
  }

  /** The handler with the gate stopping the request when it refuses it. */
  function Decide(config: ConfigPath, authorization: seq<string>, remote: Remote): (d: Decision)
    // The only panic is the absent header of a shared-secret route.
    ensures d == Crash <==> IsStaticSecret(config.tokenType) && |authorization| == 0
    ensures d.Respond? ==> WellFormed(d.reply)
    // The gate comes first: a refused request is answered by the gate and never dials,
    // whatever the SSH mode.
    ensures CheckAuthorization(config, authorization).Denied? ==>
      d == Respond(CheckAuthorization(config, authorization).reply, None)
    ensures config.tokenType == "bearer" || config.tokenType == "custom" ==> d == Respond(NotImplement(), None)
    ensures IsStaticSecret(config.tokenType) && |authorization| > 0 && authorization[0] != config.tokenValue ==>
      d == Respond(NotAuthorize(), None)
    // An admitted request goes on to the SSH-mode gate and the remote command.
    ensures CheckAuthorization(config, authorization) == Allowed ==> d == Execute(config, remote)
    // The remote command is issued only for an admitted password-mode request.
    ensures d.Respond? && d.dialed.Some? <==>
      CheckAuthorization(config, authorization) == Allowed && config.sshAuthorizeType != "private_key"
  {
    match CheckAuthorization(config, authorization)
    case IndexPanic => Crash
    case Denied(reply) => Respond(reply, None)
    case Allowed => Execute(config, remote)
  }

  /** An open route reaches the SSH-mode gate for every request, with or without a header. */
  lemma OpenRouteAlwaysProceeds(config: ConfigPath, authorization: seq<string>, remote: Remote)
    requires config.tokenType == "open"
    ensures Decide(config, authorization, remote) == Execute(config, remote)
  {
  }

  /** An admitted `private_key` request is answered 501 and never dials. */
  lemma PrivateKeyNeverDials(config: ConfigPath, authorization: seq<string>, remote: Remote)
    requires config.sshAuthorizeType == "private_key"
    requires CheckAuthorization(config, authorization) == Allowed
    ensures Decide(config, authorization, remote) == Respond(NotImplement(), None)
  {
  }

  /** The request influences the reply only through the gate's decision: two header lists
      the gate treats alike lead to the same result. */
  lemma HeaderOnlyThroughGate(config: ConfigPath, h1: seq<string>, h2: seq<string>, remote: Remote)
    requires CheckAuthorization(config, h1) == CheckAuthorization(config, h2)
    ensures Decide(config, h1, remote) == Decide(config, h2, remote)
  {
  }

  /** The remote shell influences the reply only through its answer to the configured
      request; in particular repeated identical requests get identical replies. */
  lemma RemoteOnlyThroughConfiguredRequest(config: ConfigPath, authorization: seq<string>, r1: Remote, r2: Remote)
    requires r1(SshRequestOf(config)) == r2(SshRequestOf(config))
    ensures Decide(config, authorization, r1) == Decide(config, authorization, r2)
  {
  }

  /** Non-empty stderr masks stdout even when the command succeeded: some successful run
      whose stdout is non-empty is reported without it. */
  lemma StderrMasksStdout()
    ensures exists stdout, stderr :: stdout != "" && OutcomeReply(Ran(stdout, stderr)).body.message != stdout
  {
    var out, err := "hello\n", "warn\n";
    assert out[0] != err[0];
    assert OutcomeReply(Ran(out, err)).body.message == err;
  }

  /** The success cases with printed output: empty stderr reports stdout, non-empty stderr
      reports stderr. */
  lemma SuccessExamples()
    ensures OutcomeReply(Ran("hello\n", "")).body == Envelope(StatusOK, "hello\n")
    ensures OutcomeReply(Ran("hello\n", "warn\n")).body == Envelope(StatusOK, "warn\n")
  {
  }

  // ---------------------------------------------------------------------------------------
  // The handler as written. `checkAuthorization` returns the error of `c.JSON`, which is nil
  // once the reply has been written, so `checkAuth != nil` fails after a refusal as well and
  // the handler carries on: the SSH-mode gate and the remote command run, and their reply is
  // written after the gate's into the same response body.

  /** Everything written to one response: the replies in order and the remote request issued,
      or a panic before anything was written. */
  datatype Written = Written(replies: seq<Reply>, dialed: Option<SshRequest>) | Panicked

  /** The route handler as written, with every `c.JSON` write succeeding. */
  function HandleAsWritten(config: ConfigPath, authorization: seq<string>, remote: Remote): (w: Written)
    ensures w == Panicked <==> IsStaticSecret(config.tokenType) && |authorization| == 0
    ensures w.Written? ==> forall i :: 0 <= i < |w.replies| ==> WellFormed(w.replies[i])
    // A refusal is written, and then the rest of the handler runs anyway.
    ensures CheckAuthorization(config, authorization).Denied? ==>
      |w.replies| == 2 && w.replies[0] == CheckAuthorization(config, authorization).reply
    ensures CheckAuthorization(config, authorization) == Allowed ==> |w.replies| == 1
    // After the gate, whatever it decided, the rest of the handler runs: its reply is the
    // last one written and its remote request is the one issued.
    ensures w.Written? ==>
      w.replies[|w.replies| - 1] == Execute(config, remote).reply && w.dialed == Execute(config, remote).dialed
    // So the gate never prevents the remote command.
    ensures w.Written? && config.sshAuthorizeType != "private_key" ==> w.dialed == Some(SshRequestOf(config))
    // When the gate admits the request, the as-written handler and Decide agree.
    ensures CheckAuthorization(config, authorization) == Allowed ==>
      Decide(config, authorization, remote) == Respond(w.replies[0], w.dialed)
  {
    match CheckAuthorization(config, authorization)
    case IndexPanic => Panicked
    case Denied(reply) =>
      var rest := Execute(config, remote);
      Written([reply, rest.reply], rest.dialed)
    case Allowed =>
      var rest := Execute(config, remote);
      Written([rest.reply], rest.dialed)
  }

  /** A caller with the wrong secret gets the command run: the body holds the 401 envelope
      followed by the command's output. */
  lemma WrongSecretRunsCommandAsWritten()
    ensures exists config, authorization, remote ::
      CheckAuthorization(config, authorization) == Denied(NotAuthorize()) &&
      HandleAsWritten(config, authorization, remote).dialed.Some? &&
      Decide(config, authorization, remote).dialed.None?
  {
    var config := ConfigPath("static", "s3cret", "password", "pw", "host", "22", "root", "uptime");
    var authorization := ["guess"];
    var remote: Remote := (request: SshRequest) => Ran("up 3 days\n", "");
    assert authorization[0] != config.tokenValue by { assert |authorization[0]| != |config.tokenValue|; }
    assert CheckAuthorization(config, authorization) == Denied(NotAuthorize());
    assert HandleAsWritten(config, authorization, remote) ==
      Written([NotAuthorize(), Success("up 3 days\n")], Some(SshRequestOf(config)));
  }
}
