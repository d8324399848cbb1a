/**
 * The three provider adapters, without the network. Each adapter builds a
 * request body from the conversation, hands it to the upstream service, and
 * wraps the one string extracted from a successful answer into the
 * normalized shape. The round trip itself (HTTP, the status check, JSON
 * parsing and the extraction of the answer's text) is the `transport`
 * parameter: it either yields that text or fails.
 */
module Upstream {
  import opened Wire
  import opened Selection

  /** The three ways an upstream call fails; the handler treats them alike. */
  datatype UpstreamError =
    | Unreachable          // the request could not be sent or answered
    | Rejected(status: int) // a non-success HTTP status
    | Unparseable          // the answer lacks the field the text is read from

  /** A provider request: the URL, the `Authorization` header and the JSON body. */
  datatype ChatRequest =
    | ChatCompletion(url: string, authorization: string, model: string,
                     messages: seq<Message>, maxTokens: nat, temperature: Option<real>)
    | Inference(url: string, authorization: string, inputs: string)

  /** The upstream round trip: a request in, the extracted text or a failure out. */
  type Transport = ChatRequest -> Result<string, UpstreamError>

  const MaxTokens: nat := 1000
  const GroqTemperature: real := 0.7

  const GroqUrl: string := "https://api.groq.com/openai/v1/chat/completions"
  const GroqModel: string := "llama-3.3-70b-versatile"
  const TogetherUrl: string := "https://api.together.xyz/v1/chat/completions"
  const TogetherModel: string := "meta-llama/Meta-Llama-3.1-8B-Instruct-Turbo"
  const HuggingFaceUrl: string := "https://api-inference.huggingface.co/models/microsoft/DialoGPT-large"

  /** The `Authorization` header value for a credential. */
  function Bearer(key: string): (h: string)
    ensures "Bearer " <= h && h[|"Bearer "|..] == key
  {
    "Bearer " + key
  }

  /** The body `chatWithGroq` posts: the whole conversation, a token limit and a temperature. */
  function GroqRequest(key: string, messages: seq<Message>): (r: ChatRequest)
    ensures r.ChatCompletion? && r.url == GroqUrl && r.authorization == Bearer(key)
    ensures r.messages == messages && r.maxTokens == MaxTokens
    ensures r.model == GroqModel
    ensures r.temperature == Some(GroqTemperature)
  {
    ChatCompletion(GroqUrl, Bearer(key), GroqModel, messages, MaxTokens, Some(GroqTemperature))
  }

  /** The body `chatWithTogether` posts: the whole conversation and a token limit, no temperature. */
  function TogetherRequest(key: string, messages: seq<Message>): (r: ChatRequest)
    ensures r.ChatCompletion? && r.url == TogetherUrl && r.authorization == Bearer(key)
    ensures r.messages == messages && r.maxTokens == MaxTokens
    ensures r.model == TogetherModel
    ensures r.temperature.None?
  {
    ChatCompletion(TogetherUrl, Bearer(key), TogetherModel, messages, MaxTokens, None)
  }

  /** The body `chatWithHuggingFace` posts: only the content of the last message. */
  function HuggingFaceRequest(key: string, messages: seq<Message>): (r: ChatRequest)
    requires |messages| > 0
    ensures r.Inference? && r.url == HuggingFaceUrl && r.authorization == Bearer(key)
    ensures r.inputs == Last(messages).content
  {
    Inference(HuggingFaceUrl, Bearer(key), Last(messages).content)
  }

  /**
   * The request the selected provider's adapter sends, carrying that
   * provider's credential. Groq and Together AI send the conversation
   * unchanged with the token limit of 1000, each naming its own fixed model;
   * only Groq adds a temperature.
   */
  function BuildRequest(keys: Credentials, p: Provider, messages: seq<Message>): (r: ChatRequest)
    requires p != Demo && |messages| > 0
    ensures r.authorization == Bearer(KeyOf(keys, p))
    ensures r.Inference? <==> p == HuggingFace
    ensures p != HuggingFace ==> r.messages == messages && r.maxTokens == 1000
    ensures p != HuggingFace ==> r.model == (if p == Groq then GroqModel else TogetherModel)
    ensures p != HuggingFace ==> (r.temperature.Some? <==> p == Groq)
  {
    match p
    case Groq => GroqRequest(keys.groq, messages)
    case Together => TogetherRequest(keys.together, messages)
    case HuggingFace => HuggingFaceRequest(keys.huggingFace, messages)
  }

  /**
   * `chatWithGroq`, `chatWithTogether` and `chatWithHuggingFace`: send the
   * provider's request; on success the answer is the extracted text wrapped as
   * one "text" item, on failure the transport's error is passed on unchanged.
   */
  function CallProvider(keys: Credentials, p: Provider, messages: seq<Message>, transport: Transport)
    : (r: Result<Response, UpstreamError>)
    requires p != Demo && |messages| > 0
    ensures r.Ok? <==> transport(BuildRequest(keys, p, messages)).Ok?
    ensures r.Ok? ==> IsSingleText(r.value) && Ok(TextOf(r.value)) == transport(BuildRequest(keys, p, messages))
    ensures r.Err? ==> Err(r.error) == transport(BuildRequest(keys, p, messages))
  {
    match transport(BuildRequest(keys, p, messages))
    case Ok(text) => Ok(Wrap(text))
    case Err(e) => Err(e)
  }

  /**
   * HuggingFace sends only the last message's content: conversations that end
   * with the same content give the same request, whatever came before.
   */
  lemma HuggingFaceSendsOnlyLastContent(keys: Credentials, messages: seq<Message>, others: seq<Message>)
    requires |messages| > 0 && |others| > 0
    requires Last(others).content == Last(messages).content
    ensures BuildRequest(keys, HuggingFace, others) == BuildRequest(keys, HuggingFace, messages)
  {
  }
}
