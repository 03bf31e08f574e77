/** Process configuration: the environment variables the server reads and
    the fallback chain that picks the handshake secret. */
module Config {
  import opened Wrappers

  /** The environment as the server sees it; each variable is unset or a string. */
  datatype Env = Env(
    verifyToken: Option<string>,         // VERIFY_TOKEN
    webhookVerifyToken: Option<string>,  // WEBHOOK_VERIFY_TOKEN
    accessToken: Option<string>,         // ACCESS_TOKEN
    phoneNumberId: Option<string>        // PHONE_NUMBER_ID
  )

  /** Built-in secret used when neither secret variable is set. */
  const DefaultVerifyToken: string := "your_verify_token"

  /** JavaScript truthiness of an environment value: unset and "" are both falsy. */
  predicate Truthy(v: Option<string>)
  {
    v.Some? && v.value != ""
  }

  /** `v || fallback` on an environment value. */
  function OrElse(v: Option<string>, fallback: string): string
  {
    if Truthy(v) then v.value else fallback
  }

  /** The constant VERIFY_TOKEN: the variable if truthy, else the built-in default. */
  function VerifyToken(env: Env): (s: string)
    ensures s != ""
    ensures Truthy(env.verifyToken) ==> s == env.verifyToken.value
    ensures !Truthy(env.verifyToken) ==> s == DefaultVerifyToken
  {
    OrElse(env.verifyToken, DefaultVerifyToken)
  }

  /** The constant WEBHOOK_VERIFY_TOKEN, the secret the handshake compares
      against: WEBHOOK_VERIFY_TOKEN if non-empty, else VERIFY_TOKEN if
      non-empty, else the built-in default. It is never the empty string. */
  function WebhookVerifyToken(env: Env): (s: string)
    ensures s != ""
    ensures Truthy(env.webhookVerifyToken) ==> s == env.webhookVerifyToken.value
    ensures !Truthy(env.webhookVerifyToken) && Truthy(env.verifyToken) ==> s == env.verifyToken.value
    ensures !Truthy(env.webhookVerifyToken) && !Truthy(env.verifyToken) ==> s == DefaultVerifyToken
  {
    OrElse(env.webhookVerifyToken, VerifyToken(env))
  }

  /** An empty variable behaves exactly like an unset one for the secret. */
  lemma EmptyIsUnset(env: Env)
    ensures WebhookVerifyToken(env.(webhookVerifyToken := Some(""))) == WebhookVerifyToken(env.(webhookVerifyToken := None))
    ensures WebhookVerifyToken(env.(verifyToken := Some(""))) == WebhookVerifyToken(env.(verifyToken := None))
  {
  }
}
