# command-center request pipeline, modelled in Dafny

command-center is a configuration-driven HTTP gateway. Each route read from MySQL gets an
echo handler. Per request, the handler re-reads the route's row (`ConfigPath`), checks the
caller's `Authorization` header against the route's token mode, and runs the route's fixed
command on a remote host over SSH. The outcome comes back as a JSON envelope
`{"status", "message"}`, always with transport status 200.

This project models that per-request decision pipeline as pure functions:

- `responses.dfy` (`Responses`): the envelope, the reply `c.JSON` writes, and the five
  `getResponse*` constructors.
- `config.dfy` (`Config`): the configuration row and the SSH request built from it. The SSH
  client and the remote host are a black-box parameter `Remote` from request to outcome:
  dial failed, session failed, run failed, or ran, with the captured stdout and stderr.
- `authorization.dfy` (`Authorization`): `checkAuthorization` as a decision over `token_type`.
  It yields `Allowed`, `Denied(reply)`, or `IndexPanic` for the missing header.
- `handler.dfy` (`Handler`): the branches of the route handler. `Decide` is the pipeline with
  the gate stopping a refused request. `HandleAsWritten` is the handler as the code
  behaves; see "## Findings".

The header is modelled as the slice Go's `Header["Authorization"]` yields. It is empty when
the header is absent, and indexing it then panics; the model reports this as `Crash`
(`Panicked` in the as-written handler).

## Model

| member | source | states |
|---|---|---|
| Responses.NotImplement | main.go:137-142 | transport status 200, body status 501, message "Not Implement" |
| Responses.NotAuthorize | main.go:144-149 | transport status 200, body status 401, message "Not Authorize" |
| Responses.Success | main.go:151-156 | transport status 200, body status 200, the given output as message |
| Responses.SshFailed | main.go:158-163 | transport status 200, body status 500, message "Failed to remote server" |
| Responses.FailedExecute | main.go:165-170 | transport status 200, body status 500, message "Failed execute command" |
| Responses.FailureRepliesDistinct | main.go:137-170 | the four failure envelopes are pairwise distinct, and no success reply equals any of them |
| Authorization.CheckAuthorization | main.go:116-130 | "open" always passes, even with no header; "bearer"/"custom" are refused with 501; any other mode panics exactly on a missing header and passes exactly when the first value equals token_value, otherwise 401 |
| Authorization.StaticSecretGateDecides | main.go:123-126 | in shared-secret mode some header is admitted (the secret) and some header is refused with 401 |
| Authorization.OnlyFirstValueRead | main.go:123 | values after the first `Authorization` value never change the decision |
| Config.SshRequestOf | main.go:74-99 | the dial target is the configured host, a colon and the configured port; the user and password credential are the row's `ssh_user` and `ssh_authorize_value`; the command run is `ssh_command` verbatim |
| Handler.OutcomeReply | main.go:85-108 | dial or session failure gives 500 "Failed to remote server"; a run error gives 500 "Failed execute command" with the output dropped; the body status is 200 exactly when the command ran cleanly; then the message is stderr if non-empty, otherwise stdout |
| Handler.Execute | main.go:71-108 | `private_key` answers 501 and never dials; otherwise exactly one request is issued, carrying the configured host:port, user, password and command verbatim, and the reply is the mapping of its outcome |
| Handler.Decide | main.go:66-108 | the only crash is a missing header in shared-secret mode; every reply is well formed (transport 200, body status in {200, 401, 500, 501}); a refused request gets the gate's reply and never dials, whatever the SSH mode; the remote command is issued exactly for an admitted password-mode request |
| Handler.OpenRouteAlwaysProceeds | main.go:117-129 | on an open route every request, with any header or none, reaches the SSH-mode gate |
| Handler.PrivateKeyNeverDials | main.go:71-72 | an admitted `private_key` request is answered 501 and issues no remote request |
| Handler.HeaderOnlyThroughGate | main.go:66-69 | the request influences the result only through the gate's decision |
| Handler.RemoteOnlyThroughConfiguredRequest | main.go:81-99 | the remote shell influences the result only through its answer to the configured request, so identical requests give identical replies |
| Handler.StderrMasksStdout | main.go:104-108 | some successful run with non-empty stdout is reported without its stdout, because stderr was non-empty |
| Handler.SuccessExamples | main.go:104-108 | stdout "hello\n" with empty stderr reports "hello\n"; stderr "warn\n" masks it |
| Handler.HandleAsWritten | main.go:66-108 | as written, the only panic is a missing header in shared-secret mode; every written reply is well formed; a refused request has the gate's reply written first and then the rest of the handler runs anyway: the last reply written and the remote request issued are exactly those of `Execute` (in password mode the command is issued, in `private_key` mode a trailing 501 and no dial); on an admitted request it agrees with `Decide` |
| Handler.WrongSecretRunsCommandAsWritten | main.go:66-69 | a request with the wrong secret is refused by the gate, yet the as-written handler dials while `Decide` does not |

## Left out

- Database access: the startup route list, the per-request row fetch, and the panics on their errors (main.go:39-64). The fetched row is an input.
- Route registration with echo and the server start (main.go:54-55, 113).
- The SSH client itself: dial, session, run, host-key callback, the deferred closes and the output buffers (main.go:74-99). They are the `Remote` parameter.
- Environment variables and the DSN (main.go:34-41).
- JSON serialisation inside `c.JSON`. The envelope is a datatype, and the as-written body is the sequence of envelopes written.
- A failing `c.JSON` write: the model assumes every write succeeds. A failed write would return an error and stop the as-written handler early.
- Concurrency, including the shared outer `err` written by concurrent handlers (main.go:39, 61).
- A remote step that never returns: the SSH client config sets no timeout (main.go:74-80), so a dial or `session.Run` may hang; `Remote` is total and always yields an outcome.
- What happens to the connection after a panic. `Crash` only records that no reply is produced.

## Findings

| source | as written | input that shows it | evidently intended | confidence | as-written member | corrected member |
|---|---|---|---|---|---|---|
| main.go:66-69 | `checkAuthorization` returns the error of `c.JSON`, which is nil once the 401/501 reply is written, so `checkAuth != nil` is false and the handler goes on. It runs the SSH-mode gate and the remote command, and appends their envelope to the body | token_type "static", token_value "s3cret", password mode, header `["guess"]`: the body holds `Not Authorize` followed by the command's output | a refused request is answered by the gate alone and never reaches SSH | high; not executed | Handler.HandleAsWritten, Handler.WrongSecretRunsCommandAsWritten | Handler.Decide |
