/** POST /webhook: walking the delivery envelope and handing the first
    message of each entry to the message handler. */
module Envelope {
  import opened Wrappers
  import opened Http

  const WhatsAppObject: string := "whatsapp_business_account"
  const EventReceived: string := "EVENT_RECEIVED"
  const NotWhatsApp: string := "Not a WhatsApp webhook event"

  /** `message.text`; its `body` may itself be missing. */
  datatype TextPart = TextPart(body: Option<string>)
  datatype Message = Message(from: string, text: Option<TextPart>)
  /** A delivery status; only logged, so its fields are opaque here. */
  datatype Status = Status(id: string, status: string)
  /** `changes[k].value`. */
  datatype Value = Value(messages: Option<seq<Message>>, statuses: Option<seq<Status>>)
  datatype Change = Change(value: Option<Value>)
  datatype Entry = Entry(changes: Option<seq<Change>>)
  /** The parsed request body. */
  datatype Payload = Payload(objectName: Option<string>, entry: Option<seq<Entry>>)

  /** The arguments of one call of the message handler: the sender and the
      message body, which is `undefined` (None) when `text` has no `body`. */
  datatype Inbound = Inbound(from: string, body: Option<string>)

  /** What the walk over the entries produced: the handler calls made, in
      order, and the error that stopped the walk, if any. */
  datatype Dispatch = Dispatch(handled: seq<Inbound>, failure: Option<TypeError>)

  /** What the route answers, and the handler calls it made before answering. */
  datatype PostOutcome = PostOutcome(response: Response, handled: seq<Inbound>)

  /** The handler arguments read off a message: a message without `text`
      gives the empty body. */
  function ReadMessage(m: Message): (r: Inbound)
    ensures r.from == m.from
    ensures m.text.None? ==> r.body == Some("")
    ensures m.text.Some? ==> r.body == m.text.value.body
  {
    Inbound(m.from, if m.text.Some? then m.text.value.body else Some(""))
  }

  /** The body of the `forEach` callback for one entry: it reads
      `changes[0].value`, and hands on the first of its messages, if any.
      Later changes, later messages and the statuses play no part. */
  function ProcessEntry(e: Entry): (r: Result<Option<Inbound>, TypeError>)
    ensures r.Failure? <==> e.changes.None? || e.changes.value == [] || e.changes.value[0].value.None?
    ensures r.Success? ==>
      (r.value.Some? <==> e.changes.value[0].value.value.messages.Some? && e.changes.value[0].value.value.messages.value != [])
    ensures r.Success? && r.value.Some? ==> r.value.value.from == e.changes.value[0].value.value.messages.value[0].from
  {
    if e.changes.None? then Failure(ReadOfUndefined("0"))
    else if |e.changes.value| == 0 then Failure(ReadOfUndefined("value"))
    else match e.changes.value[0].value
      case None => Failure(ReadOfUndefined("messages"))
      case Some(v) =>
        if v.messages.Some? && |v.messages.value| > 0 then Success(Some(ReadMessage(v.messages.value[0])))
        else Success(None)
  }

  function AsSeq<T>(o: Option<T>): seq<T>
  {
    if o.Some? then [o.value] else []
  }

  function Prepend(acc: seq<Inbound>, d: Dispatch): Dispatch
  {
    Dispatch(acc + d.handled, d.failure)
  }

  /** `entries.forEach(...)`: entries are processed in order; the first one
      that throws ends the walk, and the calls already made stay made. */
  function DispatchEntries(es: seq<Entry>): (r: Dispatch)
    ensures |r.handled| <= |es|
  {
    if es == [] then Dispatch([], None)
    else match ProcessEntry(es[0])
      case Failure(err) => Dispatch([], Some(err))
      case Success(o) => Prepend(AsSeq(o), DispatchEntries(es[1..]))
  }

  /** The POST /webhook route, as a value: 404 for a body that is not a
      WhatsApp event; otherwise the walk over the entries (none when `entry`
      is missing or empty), answered by 200 "EVENT_RECEIVED", or by the error
      middleware's 500 when an entry throws. */
  function Post(p: Payload): (o: PostOutcome)
    ensures o.response.status in {200, 404, 500}
    ensures o.response.status == 404 <==> p.objectName != Some(WhatsAppObject)
    ensures o.response.status == 404 ==> o.response.body == Text(NotWhatsApp) && o.handled == []
    ensures o.response.status == 200 ==> o.response.body == Text(EventReceived)
    ensures o.response.status == 500 ==> o.response.body.ErrorJson?
  {
    if p.objectName == Some(WhatsAppObject) then
      var d := if p.entry.Some? && |p.entry.value| > 0 then DispatchEntries(p.entry.value) else Dispatch([], None);
      match d.failure
      case None => PostOutcome(Response(200, Text(EventReceived)), d.handled)
      case Some(err) => PostOutcome(InternalError(err), d.handled)
    else
      PostOutcome(Response(404, Text(NotWhatsApp)), [])
  }

  /** The route handler, statement by statement: the loop over `body.entry`
      collects the handler calls and stops at the first entry that throws. */
  method HandlePost(p: Payload) returns (o: PostOutcome)
    ensures o == Post(p)
  {
    if p.objectName != Some(WhatsAppObject) {
      return PostOutcome(Response(404, Text(NotWhatsApp)), []);
    }
    var handled: seq<Inbound> := [];
    if p.entry.Some? && |p.entry.value| > 0 {
      var entries := p.entry.value;
      var i := 0;
      while i < |entries|
        invariant 0 <= i <= |entries|
        invariant DispatchEntries(entries) == Prepend(handled, DispatchEntries(entries[i..]))
      {
        assert entries[i..][1..] == entries[i + 1..];
        var entry := entries[i];
        if entry.changes.None? {
          return PostOutcome(InternalError(ReadOfUndefined("0")), handled);
        }
        if |entry.changes.value| == 0 {
          return PostOutcome(InternalError(ReadOfUndefined("value")), handled);
        }
        var value := entry.changes.value[0].value;
        if value.None? {
          return PostOutcome(InternalError(ReadOfUndefined("messages")), handled);
        }
        var messages := value.value.messages;
        if messages.Some? && |messages.value| > 0 {
          var message := messages.value[0];
          var msgBody := if message.text.Some? then message.text.value.body else Some("");
          handled := handled + [Inbound(message.from, msgBody)];
        }
        i := i + 1;
      }
    }
    o := PostOutcome(Response(200, Text(EventReceived)), handled);
  }

  // ---------------------------------------------------------------------
  // Properties of the walk

  /** The walk fails exactly when some entry throws. */
  lemma {:induction false} DispatchFailsIff(es: seq<Entry>)
    ensures DispatchEntries(es).failure.Some? <==> exists i :: 0 <= i < |es| && ProcessEntry(es[i]).Failure?
  {
    if es != [] {
      DispatchFailsIff(es[1..]);
      if ProcessEntry(es[0]).Success? {
        if exists i :: 0 <= i < |es| && ProcessEntry(es[i]).Failure? {
          var i :| 0 <= i < |es| && ProcessEntry(es[i]).Failure?;
          assert es[1..][i - 1] == es[i];
        }
        if exists i :: 0 <= i < |es[1..]| && ProcessEntry(es[1..][i]).Failure? {
          var i :| 0 <= i < |es[1..]| && ProcessEntry(es[1..][i]).Failure?;
          assert es[i + 1] == es[1..][i];
        }
      }
    }
  }

  /** Entries are processed in order: once a prefix has gone through without
      an error, the rest is walked after it and its calls come after the
      prefix's calls. */
  lemma {:induction false} DispatchAppend(es1: seq<Entry>, es2: seq<Entry>)
    requires DispatchEntries(es1).failure.None?
    ensures DispatchEntries(es1 + es2) == Prepend(DispatchEntries(es1).handled, DispatchEntries(es2))
  {
    if es1 != [] {
      assert (es1 + es2)[0] == es1[0];
      assert (es1 + es2)[1..] == es1[1..] + es2;
      DispatchAppend(es1[1..], es2);
    } else {
      assert es1 + es2 == es2;
    }
  }

  /** One entry gives exactly one handler call iff its first change's
      `messages` is non-empty, and that call carries the first message's
      sender and body. */
  lemma OneEntry(e: Entry)
    requires ProcessEntry(e).Success?
    ensures |DispatchEntries([e]).handled| == (if ProcessEntry(e).value.Some? then 1 else 0)
    ensures DispatchEntries([e]).failure.None?
    ensures ProcessEntry(e).value.Some? ==>
      DispatchEntries([e]).handled == [ReadMessage(e.changes.value[0].value.value.messages.value[0])]
  {
    assert [e][1..] == [];
  }

  /** When the `k`th entry is the first to throw, the walk ends with its error,
      and the calls made are exactly those of the entries before it. */
  lemma {:induction false} DispatchStopsAtFirstFailure(es: seq<Entry>, k: nat)
    requires k < |es| && ProcessEntry(es[k]).Failure?
    requires forall i :: 0 <= i < k ==> ProcessEntry(es[i]).Success?
    ensures DispatchEntries(es).failure == Some(ProcessEntry(es[k]).error)
    ensures DispatchEntries(es).handled == DispatchEntries(es[..k]).handled
    ensures DispatchEntries(es[..k]).failure.None?
  {
    if k == 0 {
      assert es[..0] == [];
    } else {
      assert es[1..][k - 1] == es[k];
      forall i | 0 <= i < k - 1 ensures ProcessEntry(es[1..][i]).Success? {
        assert es[1..][i] == es[i + 1];
      }
      DispatchStopsAtFirstFailure(es[1..], k - 1);
      assert es[..k][0] == es[0];
      assert es[..k][1..] == es[1..][..k - 1];
    }
  }

  /** An entry with an empty `changes` list stops the walk with the error for
      reading `value`, after the calls of the non-throwing entries before it. */
  lemma EmptyChangesStopsWalk(before: seq<Entry>, after: seq<Entry>)
    requires forall i :: 0 <= i < |before| ==> ProcessEntry(before[i]).Success?
    ensures DispatchEntries(before + [Entry(Some([]))] + after)
         == Dispatch(DispatchEntries(before).handled, Some(ReadOfUndefined("value")))
  {
    var es := before + [Entry(Some([]))] + after;
    assert es[|before|] == Entry(Some([]));
    assert es[..|before|] == before;
    forall i | 0 <= i < |before| ensures ProcessEntry(es[i]).Success? {
      assert es[i] == before[i];
    }
    DispatchStopsAtFirstFailure(es, |before|);
  }

  /** Every handler call is the first message of some entry's first change. */
  lemma {:induction false} HandledComeFromFirstMessages(es: seq<Entry>, m: Inbound)
    requires m in DispatchEntries(es).handled
    ensures exists i :: 0 <= i < |es| && ProcessEntry(es[i]) == Success(Some(m))
  {
    if es != [] {
      var o := ProcessEntry(es[0]).value;
      if m in AsSeq(o) {
        assert ProcessEntry(es[0]) == Success(Some(m));
      } else {
        HandledComeFromFirstMessages(es[1..], m);
        var i :| 0 <= i < |es[1..]| && ProcessEntry(es[1..][i]) == Success(Some(m));
        assert es[i + 1] == es[1..][i];
      }
    }
  }

  // ---------------------------------------------------------------------
  // Properties of the route

  /** A body whose `object` is missing or not "whatsapp_business_account" is
      answered 404 and hands nothing to the handler, whatever its entries. */
  lemma NotWhatsAppIgnored(p: Payload)
    requires p.objectName != Some(WhatsAppObject)
    ensures Post(p) == PostOutcome(Response(404, Text(NotWhatsApp)), [])
  {
  }

  /** A WhatsApp event is answered 200 "EVENT_RECEIVED" exactly when no entry
      throws, and by the 500 of the error middleware otherwise. */
  lemma RecognisedAnsweredByAckOrError(p: Payload)
    requires p.objectName == Some(WhatsAppObject)
    ensures var es := if p.entry.Some? then p.entry.value else [];
      (Post(p).response == Response(200, Text(EventReceived)) <==> forall i :: 0 <= i < |es| ==> ProcessEntry(es[i]).Success?)
    ensures Post(p).response.status == 200 || Post(p).response.status == 500
    ensures Post(p).response.status == 500 ==> Post(p).response.body.ErrorJson?
  {
    if p.entry.Some? && |p.entry.value| > 0 {
      DispatchFailsIff(p.entry.value);
    }
  }

  /** When entry k is the first to throw, the route answers with the error
      middleware's 500 carrying that entry's error, and the handler calls are
      those of the entries before it. This covers all three failing reads:
      a missing `changes`, an empty `changes` and a missing `value`. */
  lemma FirstFailureAnswered(p: Payload, k: nat)
    requires p.objectName == Some(WhatsAppObject) && p.entry.Some?
    requires k < |p.entry.value| && ProcessEntry(p.entry.value[k]).Failure?
    requires forall i :: 0 <= i < k ==> ProcessEntry(p.entry.value[i]).Success?
    ensures Post(p).response == InternalError(ProcessEntry(p.entry.value[k]).error)
    ensures Post(p).handled == DispatchEntries(p.entry.value[..k]).handled
  {
    DispatchStopsAtFirstFailure(p.entry.value, k);
  }

  /** A WhatsApp event with a missing or empty `entry` list is acknowledged and
      hands nothing to the handler. */
  lemma NoEntriesNoCalls(p: Payload)
    requires p.objectName == Some(WhatsAppObject)
    requires p.entry.None? || p.entry == Some([])
    ensures Post(p) == PostOutcome(Response(200, Text(EventReceived)), [])
  {
  }

  /** When no entry throws, the calls are the entries' first messages in
      entry order: each entry contributes its own calls, concatenated. */
  lemma {:induction false} CallsFollowEntryOrder(p: Payload, es1: seq<Entry>, es2: seq<Entry>)
    requires p.objectName == Some(WhatsAppObject) && p.entry == Some(es1 + es2)
    requires DispatchEntries(es1).failure.None?
    ensures Post(p).handled == DispatchEntries(es1).handled + DispatchEntries(es2).handled
    ensures Post(p).response.status == 200 <==> DispatchEntries(es2).failure.None?
  {
    DispatchAppend(es1, es2);
    if |es1 + es2| == 0 {
      assert es1 == [] && es2 == [];
    }
  }

  /** Only `changes[0]` and `messages[0]` are looked at: extra changes,
      extra messages and any statuses leave an entry's outcome unchanged. */
  lemma OnlyFirstElementsMatter(m: Message, ms: seq<Message>, st: Option<seq<Status>>, cs: seq<Change>)
    ensures ProcessEntry(Entry(Some([Change(Some(Value(Some([m] + ms), st)))] + cs)))
         == ProcessEntry(Entry(Some([Change(Some(Value(Some([m]), None)))])))
         == Success(Some(ReadMessage(m)))
  {
  }

  /** A change that carries only statuses produces no handler call. */
  lemma StatusesOnlyNoCall(st: seq<Status>, cs: seq<Change>)
    ensures ProcessEntry(Entry(Some([Change(Some(Value(None, Some(st))))] + cs))) == Success(None)
    ensures ProcessEntry(Entry(Some([Change(Some(Value(Some([]), Some(st))))] + cs))) == Success(None)
  {
  }

  /** A message without `text` is handled with the empty body; one whose
      `text` has no `body` is handled with `undefined`. */
  lemma MessageBodyDefaults(from: string)
    ensures ReadMessage(Message(from, None)) == Inbound(from, Some(""))
    ensures ReadMessage(Message(from, Some(TextPart(None)))) == Inbound(from, None)
  {
  }
}
