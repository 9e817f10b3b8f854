/**
  The MyGPT wrapper around the chat-completion client (MyGPT.py). The client is
  injected as a value; the network call it makes is not modelled.
 */
module MyGpt {
  import opened Wrappers

  datatype Role = User | Assistant

  /** One role-tagged entry of a request: `{"role": ..., "content": ...}`. */
  datatype Message = Message(role: Role, content: string)

  /**
    The dynamically typed `messages` argument of `get_response`: a string, a
    list of messages, or a value of any other type.
   */
  datatype MessagesArg = Text(text: string) | List(items: seq<Message>) | OtherValue

  /** The temperature is a float the core passes through without inspecting it. */
  type Temperature = real

  /** The keyword arguments given to `client.chat.completions.create`. */
  datatype Request = Request(messages: seq<Message>, model: string, maxTokens: int,
                             stream: bool, temperature: Temperature)

  /**
    What the client gives back: with `stream=True`, a stream of chunks, each
    reduced to its `choices[0].delta.content`; otherwise a completion, reduced
    to its `choices[0].message.content`.
   */
  datatype Completion = ChunkStream(deltas: seq<Option<string>>) | ChatCompletion(content: Option<string>)

  /** The completion API as an opaque collaborator: one function per response shape. */
  datatype Client = Client(streamCreate: Request -> seq<Option<string>>,
                           chatCreate: Request -> Option<string>)

  /** `client.chat.completions.create(...)`: the response shape follows the request's stream flag. */
  function Create(client: Client, req: Request): (c: Completion)
    ensures c.ChunkStream? <==> req.stream
  {
    if req.stream then ChunkStream(client.streamCreate(req)) else ChatCompletion(client.chatCreate(req))
  }

  /** What `get_response` returns: the completion object itself, or a piece of text. */
  datatype Reply = CompletionReply(completion: Completion) | ContentReply(content: Option<string>)

  const InvalidMessagesType: string := "Invalid messages type. It should be a string or a list."

  /**
    The request `get_response` sends for its arguments, or `None` when the
    `messages` argument is neither a string nor a list and nothing is sent.
   */
  function RequestFor(messages: MessagesArg, model: string, maxTokens: int,
                      temperature: Temperature, stream: bool): Option<Request>
  {
    match messages
    case Text(s) => Some(Request([Message(User, s)], model, maxTokens, stream, temperature))
    case List(items) => Some(Request(items, model, maxTokens, stream, temperature))
    case OtherValue => None
  }

  /** `MyGPT.get_response`, with the same default arguments. */
  function GetResponse(client: Client, messages: MessagesArg, model: string := "gpt-3.5-turbo",
                       maxTokens: int := 1000, temperature: Temperature := 0.7,
                       stream: bool := false): (r: Reply)
    ensures stream && !messages.OtherValue? ==> r.CompletionReply? && r.completion.ChunkStream?
    ensures !stream ==> r.ContentReply?
  {
    match RequestFor(messages, model, maxTokens, temperature, stream)
    case None => ContentReply(Some(InvalidMessagesType))
    case Some(req) =>
      var completion := Create(client, req);
      if stream then CompletionReply(completion) else ContentReply(completion.content)
  }

  /** A string is sent as exactly one user message holding that string. */
  lemma TextIsWrapped(s: string, model: string, maxTokens: int,
                      temperature: Temperature, stream: bool)
    ensures RequestFor(Text(s), model, maxTokens, temperature, stream)
            == Some(Request([Message(User, s)], model, maxTokens, stream, temperature))
  {
  }

  /** A list is forwarded unchanged, together with the other arguments. */
  lemma ListIsForwarded(items: seq<Message>, model: string, maxTokens: int,
                        temperature: Temperature, stream: bool)
    ensures var req := RequestFor(List(items), model, maxTokens, temperature, stream);
            req.Some? && req.value.messages == items && req.value.model == model &&
            req.value.maxTokens == maxTokens && req.value.temperature == temperature &&
            req.value.stream == stream
  {
  }

  /**
    Any other argument gives the fixed error text, whatever the stream flag,
    and the client is never consulted: two clients give the same reply.
   */
  lemma OtherValueNeverCallsClient(c1: Client, c2: Client, model: string, maxTokens: int,
                                   temperature: Temperature, stream: bool)
    ensures RequestFor(OtherValue, model, maxTokens, temperature, stream).None?
    ensures GetResponse(c1, OtherValue, model, maxTokens, temperature, stream)
            == ContentReply(Some(InvalidMessagesType))
    ensures GetResponse(c1, OtherValue, model, maxTokens, temperature, stream)
            == GetResponse(c2, OtherValue, model, maxTokens, temperature, stream)
  {
  }

  /**
    For a string or a list, streaming returns the client's stream untouched and
    non-streaming returns the content of the completion's first choice.
   */
  lemma ReplySelection(client: Client, messages: MessagesArg, model: string, maxTokens: int,
                       temperature: Temperature, stream: bool)
    requires !messages.OtherValue?
    ensures var req := RequestFor(messages, model, maxTokens, temperature, stream);
            req.Some? &&
            GetResponse(client, messages, model, maxTokens, temperature, stream)
            == if stream then CompletionReply(ChunkStream(client.streamCreate(req.value)))
               else ContentReply(client.chatCreate(req.value))
  {
  }
}
