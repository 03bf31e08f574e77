/** Reply synthesis and the outbound send: `handleIncomingMessage` and
    `sendMessage`, stopping at the request they would hand to the HTTP client. */
module Outbound {
  import opened Wrappers
  import Config

  const EchoPrefix: string := "Echo: "
  const GraphApiBase: string := "https://graph.facebook.com/v17.0/"
  const MessagesPath: string := "/messages"
  const BearerPrefix: string := "Bearer "
  const MessagingProduct: string := "whatsapp"

  datatype Header = Header(name: string, value: string)
  /** The JSON payload `{messaging_product, to, text: {body}}`. */
  datatype SendBody = SendBody(messagingProduct: string, to: string, textBody: string)
  /** One POST request to the Cloud API. */
  datatype Request = Request(url: string, data: SendBody, headers: seq<Header>)

  /** What one call of `sendMessage` does: give up on a missing access token,
      give up on a missing phone-number id, or post exactly one request. */
  datatype SendOutcome = MissingAccessToken | MissingPhoneNumberId | Sent(request: Request)

  /** A value interpolated into a template literal: `undefined` prints as "undefined". */
  function Interpolate(v: Option<string>): string
  {
    if v.Some? then v.value else "undefined"
  }

  /** The reply text of the echo bot: the prefix followed by the body,
      unchanged, so the body reads back from the reply. */
  function EchoText(messageBody: Option<string>): (r: string)
    ensures EchoedText(r) == Some(Interpolate(messageBody))
  {
    var r := EchoPrefix + Interpolate(messageBody);
    assert r[..|EchoPrefix|] == EchoPrefix;
    assert r[|EchoPrefix|..] == Interpolate(messageBody);
    r
  }

  /** Recovers the echoed text from a reply, if it is one. */
  function EchoedText(reply: string): Option<string>
  {
    if |EchoPrefix| <= |reply| && reply[..|EchoPrefix|] == EchoPrefix then Some(reply[|EchoPrefix|..]) else None
  }

  /** A message without text is echoed as the bare prefix. */
  lemma EmptyBodyEcho()
    ensures EchoText(Some("")) == EchoPrefix
    ensures EchoedText(EchoPrefix) == Some("")
  {
    assert EchoPrefix + "" == EchoPrefix;
  }

  /** The messages endpoint of a phone-number id; it addresses exactly that id. */
  function EndpointUrl(phoneNumberId: string): (url: string)
    ensures PhoneNumberIdOf(url) == Some(phoneNumberId)
  {
    var url := GraphApiBase + phoneNumberId + MessagesPath;
    var n, m := |GraphApiBase|, |MessagesPath|;
    assert url[..n] == GraphApiBase;
    assert url[|url| - m..] == MessagesPath;
    assert url[n..|url| - m] == phoneNumberId;
    url
  }

  /** Reads the phone-number id back out of a messages endpoint URL. */
  function PhoneNumberIdOf(url: string): Option<string>
  {
    var n, m := |GraphApiBase|, |MessagesPath|;
    if n + m <= |url| && url[..n] == GraphApiBase && url[|url| - m..] == MessagesPath
    then Some(url[n..|url| - m])
    else None
  }

  /** `sendMessage(to, message)`: the access token is checked first, then the
      phone-number id (both must be set and non-empty); only then is exactly
      one request built, addressed to the id's endpoint, bearer-authenticated
      with the token, carrying the recipient and the text. */
  function SendMessage(env: Config.Env, to: string, message: string): (r: SendOutcome)
    ensures r.Sent? <==> Config.Truthy(env.accessToken) && Config.Truthy(env.phoneNumberId)
    ensures r == MissingAccessToken <==> !Config.Truthy(env.accessToken)
    ensures r.Sent? ==> PhoneNumberIdOf(r.request.url) == Some(env.phoneNumberId.value)
    ensures r.Sent? ==> r.request.data == SendBody(MessagingProduct, to, message)
    ensures r.Sent? ==>
      r.request.headers == [Header("Authorization", BearerPrefix + env.accessToken.value), Header("Content-Type", "application/json")]
  {
    if !Config.Truthy(env.accessToken) then MissingAccessToken
    else if !Config.Truthy(env.phoneNumberId) then MissingPhoneNumberId
    else
      Sent(Request(
        EndpointUrl(env.phoneNumberId.value),
        SendBody(MessagingProduct, to, message),
        [Header("Authorization", BearerPrefix + env.accessToken.value),
         Header("Content-Type", "application/json")]))
  }

  /** The text of a sent reply reads back as the message body; a body that
      is `undefined` is echoed as the word "undefined". */
  lemma ReplyEchoesBody(env: Config.Env, from: string, messageBody: Option<string>)
    requires HandleIncomingMessage(env, from, messageBody).Sent?
    ensures EchoedText(HandleIncomingMessage(env, from, messageBody).request.data.textBody) == Some(Interpolate(messageBody))
  {
  }

  /** `handleIncomingMessage(from, messageBody)`: the echo reply sent back to the sender. */
  function HandleIncomingMessage(env: Config.Env, from: string, messageBody: Option<string>): (r: SendOutcome)
    ensures r.Sent? ==> r.request.data.to == from
    ensures r.Sent? ==> r.request.data.textBody == EchoText(messageBody)
    ensures r.Sent? <==> Config.Truthy(env.accessToken) && Config.Truthy(env.phoneNumberId)
  {
    SendMessage(env, from, EchoText(messageBody))
  }
}
