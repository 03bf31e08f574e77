/** The whole POST /webhook exchange: the answer to the webhook caller and
    the outbound sends started by the handler calls, as two separate results. */
module Webhook {
  import opened Wrappers
  import opened Http
  import Config
  import Envelope
  import Outbound

  /** The inbound answer and, per handler call in call order, what its send did. */
  datatype Exchange = Exchange(response: Response, sends: seq<Outbound.SendOutcome>)

  /** The handler calls run one after another, each starting its own send. */
  function Sends(env: Config.Env, handled: seq<Envelope.Inbound>): (r: seq<Outbound.SendOutcome>)
    ensures |r| == |handled|
    ensures forall k :: 0 <= k < |r| ==> r[k] == Outbound.HandleIncomingMessage(env, handled[k].from, handled[k].body)
  {
    if handled == [] then []
    else [Outbound.HandleIncomingMessage(env, handled[0].from, handled[0].body)] + Sends(env, handled[1..])
  }

  /** The exchange: the caller's answer is the route's own, and every handler
      call the route made starts exactly one send; a 404 starts none. */
  function PostWebhook(env: Config.Env, p: Envelope.Payload): (r: Exchange)
    ensures r.response == Envelope.Post(p).response
    ensures |r.sends| == |Envelope.Post(p).handled|
    ensures r.response.status == 404 ==> r.sends == []
  {
    var o := Envelope.Post(p);
    Exchange(o.response, Sends(env, o.handled))
  }

  /** The requests actually put on the wire. */
  function Requests(sends: seq<Outbound.SendOutcome>): seq<Outbound.Request>
  {
    if sends == [] then []
    else (if sends[0].Sent? then [sends[0].request] else []) + Requests(sends[1..])
  }

  /** The answer to the webhook caller does not depend on the outbound
      configuration, so no outcome of a send can change it. */
  lemma AckIndependentOfSends(env1: Config.Env, env2: Config.Env, p: Envelope.Payload)
    ensures PostWebhook(env1, p).response == PostWebhook(env2, p).response
  {
  }

  /** Without a usable access token or phone-number id no handler call puts
      a request on the wire. */
  lemma {:induction false} UnconfiguredSendsNothing(env: Config.Env, sends: seq<Outbound.SendOutcome>, handled: seq<Envelope.Inbound>)
    requires !Config.Truthy(env.accessToken) || !Config.Truthy(env.phoneNumberId)
    requires sends == Sends(env, handled)
    ensures Requests(sends) == []
  {
    if sends != [] {
      assert sends[1..] == Sends(env, handled[1..]);
      UnconfiguredSendsNothing(env, sends[1..], handled[1..]);
    }
  }

  /** With both set, every handler call puts exactly one request on the
      wire, in call order: to the sender, with the echoed text. */
  lemma {:induction false} ConfiguredSendsOnePerCall(env: Config.Env, sends: seq<Outbound.SendOutcome>, handled: seq<Envelope.Inbound>)
    requires Config.Truthy(env.accessToken) && Config.Truthy(env.phoneNumberId)
    requires sends == Sends(env, handled)
    ensures |Requests(sends)| == |handled|
    ensures forall k :: 0 <= k < |handled| ==>
      Requests(sends)[k].data == Outbound.SendBody(Outbound.MessagingProduct, handled[k].from, Outbound.EchoText(handled[k].body))
  {
    if sends != [] {
      var rest := sends[1..];
      assert rest == Sends(env, handled[1..]);
      ConfiguredSendsOnePerCall(env, rest, handled[1..]);
      var first := Outbound.HandleIncomingMessage(env, handled[0].from, handled[0].body);
      assert sends[0] == first && first.Sent?;
      assert Requests(sends) == [first.request] + Requests(rest);
      forall k | 0 <= k < |handled|
        ensures Requests(sends)[k].data == Outbound.SendBody(Outbound.MessagingProduct, handled[k].from, Outbound.EchoText(handled[k].body))
      {
        if k > 0 { assert handled[1..][k - 1] == handled[k]; }
      }
    }
  }

  /** A body that is not a WhatsApp event sends nothing. */
  lemma NotWhatsAppSendsNothing(env: Config.Env, p: Envelope.Payload)
    requires p.objectName != Some(Envelope.WhatsAppObject)
    ensures PostWebhook(env, p) == Exchange(Response(404, Text(Envelope.NotWhatsApp)), [])
  {
  }

  /** The worked example: one entry whose first change carries the message
      "hi" from 15551234 is acknowledged and produces exactly one request,
      to 15551234 with the text "Echo: hi". */
  lemma SingleMessageExample(env: Config.Env)
    requires Config.Truthy(env.accessToken) && Config.Truthy(env.phoneNumberId)
    ensures var msg := Envelope.Message("15551234", Some(Envelope.TextPart(Some("hi"))));
      var p := Envelope.Payload(Some(Envelope.WhatsAppObject),
        Some([Envelope.Entry(Some([Envelope.Change(Some(Envelope.Value(Some([msg]), None)))]))]));
      var x := PostWebhook(env, p);
      x.response == Response(200, Text(Envelope.EventReceived)) &&
      |Requests(x.sends)| == 1 &&
      Requests(x.sends)[0].data == Outbound.SendBody("whatsapp", "15551234", "Echo: hi")
  {
    var msg := Envelope.Message("15551234", Some(Envelope.TextPart(Some("hi"))));
    var e := Envelope.Entry(Some([Envelope.Change(Some(Envelope.Value(Some([msg]), None)))]));
    var p := Envelope.Payload(Some(Envelope.WhatsAppObject), Some([e]));
    Envelope.OneEntry(e);
    var x := PostWebhook(env, p);
    assert Envelope.Post(p).handled == [Envelope.Inbound("15551234", Some("hi"))];
    ConfiguredSendsOnePerCall(env, x.sends, Envelope.Post(p).handled);
  }

  /** An entry whose `changes` list is empty ends the request on the 500
      path; calls made for earlier entries still send their replies. */
  lemma EmptyChangesIsInternalError(env: Config.Env, p: Envelope.Payload, before: seq<Envelope.Entry>, after: seq<Envelope.Entry>)
    requires p.objectName == Some(Envelope.WhatsAppObject)
    requires p.entry == Some(before + [Envelope.Entry(Some([]))] + after)
    requires forall i :: 0 <= i < |before| ==> Envelope.ProcessEntry(before[i]).Success?
    ensures PostWebhook(env, p).response == InternalError(ReadOfUndefined("value"))
    ensures PostWebhook(env, p).sends == Sends(env, Envelope.DispatchEntries(before).handled)
  {
    Envelope.EmptyChangesStopsWalk(before, after);
    assert Envelope.Post(p) == Envelope.PostOutcome(InternalError(ReadOfUndefined("value")), Envelope.DispatchEntries(before).handled);
  }
}
