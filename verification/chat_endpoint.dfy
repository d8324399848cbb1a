/**
 * The two entry points of the relay. `POST /api/chat` validates the body,
 * uses the selected provider and, when that call fails, answers with the
 * demo reply to the same messages instead; `GET /health` reports which
 * provider is selected. Both see the credentials as fixed parameters.
 */
module ChatEndpoint {
  import opened Wire
  import opened Selection
  import DemoMode
  import opened Upstream

  /** The `messages` field of the request body, as the handler can find it. */
  datatype MessagesField =
    | Absent                       // missing, or a falsy value
    | NotAnArray                   // present but not an array
    | AnArray(items: seq<Message>)

  /** What `POST /api/chat` answers. */
  datatype ChatReply =
    | BadRequest(error: string)    // status 400 with `{ error }`
    | Answered(response: Response) // status 200 with a normalized response

  /** What `GET /health` answers (the timestamp is left out). */
  datatype HealthReply = HealthReply(status: string, api: string)

  const InvalidRequest: string := "Invalid request"

  /** The HTTP status of a chat reply. */
  function StatusCode(r: ChatReply): (code: nat)
    ensures code == 400 <==> r.BadRequest?
    ensures code == 200 <==> r.Answered?
  {
    match r
    case BadRequest(_) => 400
    case Answered(_) => 200
  }

  /**
   * The `/api/chat` handler. `pick` stands for the random choice of a generic
   * demo reply. The body is rejected exactly when `messages` is not an array;
   * every other request is answered with one "text" item.
   */
  function HandleChat(keys: Credentials, field: MessagesField, transport: Transport, pick: nat): (r: ChatReply)
    requires field.AnArray? ==> |field.items| > 0
    requires pick < DemoMode.DefaultCount
    ensures r.BadRequest? <==> !field.AnArray?
    ensures r.BadRequest? ==> r.error == InvalidRequest
    ensures r.Answered? ==> IsSingleText(r.response)
  {
    if !field.AnArray? then BadRequest(InvalidRequest)
    else
      var p := Select(keys);
      if p == Demo then Answered(DemoMode.Reply(field.items, pick))
      else match CallProvider(keys, p, field.items, transport)
        case Ok(response) => Answered(response)
        case Err(_) => Answered(DemoMode.Reply(field.items, pick))
  }

  /** The `/health` handler: status "ok" and the name of the selected provider. */
  function HealthCheck(keys: Credentials): (r: HealthReply)
    ensures r.status == "ok"
    ensures r.api == HealthLabel(Select(keys))
  {
    HealthReply("ok", HealthName(keys))
  }

  /**
   * A body without a `messages` array is answered with 400 and
   * "Invalid request" whatever the credentials, the transport and the pick:
   * neither a provider nor the demo responder takes part.
   */
  lemma InvalidRequestShortCircuits(keys: Credentials, otherKeys: Credentials, field: MessagesField,
                                    transport: Transport, otherTransport: Transport,
                                    pick: nat, otherPick: nat)
    requires !field.AnArray?
    requires pick < DemoMode.DefaultCount && otherPick < DemoMode.DefaultCount
    ensures HandleChat(keys, field, transport, pick) == BadRequest(InvalidRequest)
    ensures HandleChat(otherKeys, field, otherTransport, otherPick) == HandleChat(keys, field, transport, pick)
    ensures StatusCode(HandleChat(keys, field, transport, pick)) == 400
  {
  }

  /** A successful provider call is answered with its extracted text, wrapped as one "text" item. */
  lemma ProviderSuccessIsWrapped(keys: Credentials, messages: seq<Message>, transport: Transport, pick: nat, text: string)
    requires |messages| > 0 && pick < DemoMode.DefaultCount
    requires Select(keys) != Demo
    requires transport(BuildRequest(keys, Select(keys), messages)) == Ok(text)
    ensures HandleChat(keys, AnArray(messages), transport, pick) == Answered(Wrap(text))
  {
  }

  /**
   * Whatever way the selected provider's call fails, the answer is the demo
   * reply to the same messages, with status 200; nothing of the failed call
   * is kept.
   */
  lemma FailureFallsBackToDemo(keys: Credentials, messages: seq<Message>, transport: Transport, pick: nat)
    requires |messages| > 0 && pick < DemoMode.DefaultCount
    requires Select(keys) != Demo
    requires transport(BuildRequest(keys, Select(keys), messages)).Err?
    ensures HandleChat(keys, AnArray(messages), transport, pick) == Answered(DemoMode.Reply(messages, pick))
    ensures StatusCode(HandleChat(keys, AnArray(messages), transport, pick)) == 200
  {
  }

  /**
   * With no credential set the demo reply is returned, the transport is never
   * consulted, and the answer carries non-empty text.
   */
  lemma NoCredentialUsesDemo(keys: Credentials, messages: seq<Message>, transport: Transport,
                             otherTransport: Transport, pick: nat)
    requires |messages| > 0 && pick < DemoMode.DefaultCount
    requires keys.groq == "" && keys.together == "" && keys.huggingFace == ""
    ensures HandleChat(keys, AnArray(messages), transport, pick) == Answered(DemoMode.Reply(messages, pick))
    ensures HandleChat(keys, AnArray(messages), otherTransport, pick) == HandleChat(keys, AnArray(messages), transport, pick)
    ensures TextOf(HandleChat(keys, AnArray(messages), transport, pick).response) != ""
  {
  }

  /**
   * Exactly one path produces the answer: it is either the selected
   * provider's text, wrapped, or the demo reply; never a mix of the two.
   */
  lemma SinglePathAnswers(keys: Credentials, messages: seq<Message>, transport: Transport, pick: nat)
    requires |messages| > 0 && pick < DemoMode.DefaultCount
    ensures var r := HandleChat(keys, AnArray(messages), transport, pick);
      || r == Answered(DemoMode.Reply(messages, pick))
      || (Select(keys) != Demo
          && transport(BuildRequest(keys, Select(keys), messages)).Ok?
          && r == Answered(Wrap(transport(BuildRequest(keys, Select(keys), messages)).value)))
  {
  }

  /** `/health` names the provider the chat handler would use, and says "Demo" exactly when no credential is set. */
  lemma HealthMatchesChat(keys: Credentials)
    ensures HealthCheck(keys).api == "Demo" <==> Select(keys) == Demo
    ensures HealthCheck(keys).api == "Demo" <==> keys.groq == "" && keys.together == "" && keys.huggingFace == ""
  {
  }
}
