/**
 * The values that travel through the chat relay: conversation messages,
 * the normalized response every path returns, and the two small
 * failure-compatible wrappers the other modules use.
 */
module Wire {

  datatype Option<+T> = None | Some(value: T)

  datatype Result<+T, +E> = Ok(value: T) | Err(error: E)

  /** One conversation turn, `{ role, content }`. */
  datatype Message = Message(role: string, content: string)

  /** One item of a normalized response, `{ type, text }`. */
  datatype ContentItem = ContentItem(kind: string, text: string)

  /** The normalized response `{ content: [ ... ] }`. */
  datatype Response = Response(content: seq<ContentItem>)

  /** The last message of a non-empty conversation: the current user turn. */
  function Last(messages: seq<Message>): (m: Message)
    requires |messages| > 0
    ensures m in messages
  {
    messages[|messages| - 1]
  }

  /** Messages put before a conversation do not change its last message. */
  lemma LastIgnoresEarlier(earlier: seq<Message>, messages: seq<Message>)
    requires |messages| > 0
    ensures Last(earlier + messages) == Last(messages)
  {
  }

  /** A response made of exactly one item of type "text". */
  predicate IsSingleText(r: Response)
  {
    |r.content| == 1 && r.content[0].kind == "text"
  }

  /** The text a single-text response carries. */
  function TextOf(r: Response): string
    requires IsSingleText(r)
  {
    r.content[0].text
  }

  /**
   * Wraps one string into the normalized shape; every success path of the
   * relay ends here. Reading the text back gives the string that was wrapped.
   */
  function Wrap(text: string): (r: Response)
    ensures IsSingleText(r) && TextOf(r) == text
  {
    Response([ContentItem("text", text)])
  }

  /** Every single-text response is the wrapping of its own text. */
  lemma WrapTextOf(r: Response)
    requires IsSingleText(r)
    ensures Wrap(TextOf(r)) == r
  {
  }

  /** Distinct texts give distinct responses. */
  lemma WrapInjective(a: string, b: string)
    requires Wrap(a) == Wrap(b)
    ensures a == b
  {
  }
}
