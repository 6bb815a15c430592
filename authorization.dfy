/** The authorization gate (main.go, `checkAuthorization`). */
module Authorization {
  import opened Responses
  import opened Config

  /** What the gate decides: let the request through, answer it with a reply, or panic on
      an absent `Authorization` header (indexing the empty slice that Go's header map gives
      for a missing key). */
  datatype GateResult = Allowed | Denied(reply: Reply) | IndexPanic

  /** True of the token types that fall through to the shared-secret comparison. */
  predicate IsStaticSecret(tokenType: string) {
    tokenType != "open" && tokenType != "bearer" && tokenType != "custom"
  }

  /** checkAuthorization. `authorization` is the slice of values of the request's
      `Authorization` header; it is empty when the header is absent. */
  function CheckAuthorization(config: ConfigPath, authorization: seq<string>): (g: GateResult)
    // An open route lets every request through, with or without the header.
    ensures config.tokenType == "open" ==> g == Allowed
    // The reserved modes answer "not implemented" whatever the header holds.
    ensures config.tokenType == "bearer" || config.tokenType == "custom" ==> g == Denied(NotImplement())
    // Any other mode reads the first header value, and panics when there is none.
    ensures g == IndexPanic <==> IsStaticSecret(config.tokenType) && |authorization| == 0
    // The request passes exactly on an open route or when the first value is the secret.
    ensures g == Allowed <==>
      config.tokenType == "open" ||
      (IsStaticSecret(config.tokenType) && |authorization| > 0 && authorization[0] == config.tokenValue)
    // A refused shared secret is answered 401.
    ensures IsStaticSecret(config.tokenType) && g.Denied? ==> g.reply == NotAuthorize()
    ensures g.Denied? ==> WellFormed(g.reply) && IsFailure(g.reply)
  {
    if config.tokenType != "open" then
      if config.tokenType == "bearer" then
        Denied(NotImplement())
      else if config.tokenType == "custom" then
        Denied(NotImplement())
      else if |authorization| == 0 then
        IndexPanic
      else if authorization[0] != config.tokenValue then
        Denied(NotAuthorize())
      else
        Allowed
    else
      Allowed
  }

  /** A shared-secret route is neither open nor closed: the header carrying the secret is
      admitted, and a header with any other first value is refused with 401. */
  lemma StaticSecretGateDecides(config: ConfigPath)
    requires IsStaticSecret(config.tokenType)
    ensures exists authorization :: CheckAuthorization(config, authorization) == Allowed
    ensures exists authorization :: CheckAuthorization(config, authorization) == Denied(NotAuthorize())
  {
    assert CheckAuthorization(config, [config.tokenValue]) == Allowed;
    var wrong := config.tokenValue + "x";
    assert |wrong| != |config.tokenValue|;
    assert CheckAuthorization(config, [wrong]) == Denied(NotAuthorize());
  }

  /** Only the first header value is ever read: later values never change the decision. */
  lemma OnlyFirstValueRead(config: ConfigPath, value: string, rest1: seq<string>, rest2: seq<string>)
    ensures CheckAuthorization(config, [value] + rest1) == CheckAuthorization(config, [value] + rest2)
  {
  }
}
