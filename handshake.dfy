/** GET /webhook: the subscription handshake. */
module Handshake {
  import opened Wrappers
  import opened Http
  import Config

  /** The three query parameters `hub.mode`, `hub.verify_token` and
      `hub.challenge`; each may be missing. */
  datatype Query = Query(mode: Option<string>, verifyToken: Option<string>, challenge: Option<string>)

  const Subscribe: string := "subscribe"
  const Forbidden: string := "Forbidden"

  /** `res.send(challenge)`: the challenge as given, or an empty body when it is missing. */
  function ChallengeBody(challenge: Option<string>): Body
  {
    match challenge
    case Some(c) => Text(c)
    case None => Empty
  }

  /** The handshake against a configured secret: 200 echoing the challenge
      exactly when the mode is "subscribe" and the token equals the secret
      (strict equality, so a missing mode or token never matches); otherwise
      403 "Forbidden". */
  function Verify(q: Query, secret: string): (r: Response)
    ensures r.status == 200 <==> q.mode == Some(Subscribe) && q.verifyToken == Some(secret)
    ensures r.status == 200 ==> r.body == ChallengeBody(q.challenge)
    ensures r.status != 200 ==> r == Response(403, Text(Forbidden))
  {
    if q.mode == Some(Subscribe) && q.verifyToken == Some(secret) then
      Response(200, ChallengeBody(q.challenge))
    else
      Response(403, Text(Forbidden))
  }

  /** The GET /webhook route: the handshake against WEBHOOK_VERIFY_TOKEN. */
  function GetWebhook(env: Config.Env, q: Query): (r: Response)
    ensures r.status == 200 || r.status == 403
    ensures r.status == 200 <==> q.mode == Some(Subscribe) && q.verifyToken == Some(Config.WebhookVerifyToken(env))
  {
    Verify(q, Config.WebhookVerifyToken(env))
  }

  /** On success the body is the challenge verbatim, character for character. */
  lemma ChallengeVerbatim(env: Config.Env, q: Query, c: string)
    requires q.challenge == Some(c)
    requires GetWebhook(env, q).status == 200
    ensures GetWebhook(env, q).body == Text(c)
  {
  }

  /** A missing or empty token is always rejected, whatever the environment,
      because the effective secret is never empty. */
  lemma MissingOrEmptyTokenRejected(env: Config.Env, q: Query)
    requires q.verifyToken == None || q.verifyToken == Some("")
    ensures GetWebhook(env, q) == Response(403, Text(Forbidden))
  {
  }

  /** With neither secret variable set (or both empty), exactly the built-in
      default token passes the handshake. */
  lemma DefaultSecretAccepted(env: Config.Env, q: Query)
    requires !Config.Truthy(env.webhookVerifyToken) && !Config.Truthy(env.verifyToken)
    requires q.mode == Some(Subscribe)
    ensures GetWebhook(env, q).status == 200 <==> q.verifyToken == Some(Config.DefaultVerifyToken)
  {
  }

  /** WEBHOOK_VERIFY_TOKEN, when non-empty, shadows VERIFY_TOKEN: a token
      equal only to VERIFY_TOKEN is then rejected. */
  lemma WebhookTokenShadowsVerifyToken(env: Config.Env, q: Query)
    requires Config.Truthy(env.webhookVerifyToken)
    requires q.verifyToken == env.verifyToken && env.verifyToken != env.webhookVerifyToken
    ensures GetWebhook(env, q) == Response(403, Text(Forbidden))
  {
  }
}
