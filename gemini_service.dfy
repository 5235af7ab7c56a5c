/** The LLM service wrapper (services/geminiService.ts): the API-key check,
    the shaping of a chat request from a message history, the loop that
    accumulates the streamed text, and the title generator's fallback.

    The SDK itself is not modelled: a stream is a `StreamScript` (the text of
    each chunk it yields, then completion or an exception) and a title call is
    a `TitleResponse`. */
module GeminiService {
  import opened Wrappers
  import opened Types
  import opened Constants

  /** What `streamChat` and `generateTitle` can throw. */
  datatype ServiceError =
    | ConfigError(message: string)  // thrown by getClient
    | NoLastMessage                 // TypeError reading the last message of an empty list
    | StreamFailed                  // generateContentStream rejected, or the stream broke

  /** The client getClient builds; only its key matters here. */
  datatype Client = Client(apiKey: string)

  /** One part of a turn; it carries text only, never attachments. */
  datatype Part = Part(text: string)

  /** One entry of the request's `contents`: `{ role, parts }`. */
  datatype Content = Content(role: string, parts: seq<Part>)

  /** The arguments of generateContentStream that the model keeps; the
      sampling settings (temperature, topP, topK) are left out. */
  datatype Request = Request(model: string, contents: seq<Content>, systemInstruction: string)

  /** A stream as the SDK delivers it: the `text` field of each chunk, in
      order (None where the chunk has none), and whether the stream then ends
      by throwing instead of completing. A request that is rejected outright
      is `StreamScript([], true)`. */
  datatype StreamScript = StreamScript(chunks: seq<Option<string>>, fails: bool)

  /** What the title request yields: a response whose `text` may be missing
      or empty, or an exception. */
  datatype TitleResponse = TitleReply(text: Option<string>) | TitleError

  /** getClient: `process.env.API_KEY` must be set and non-empty. */
  function GetClient(apiKey: Option<string>): (r: Result<Client, ServiceError>)
    ensures r.Success? <==> apiKey.Some? && apiKey.value != ""
    ensures r.Success? ==> r.value.apiKey == apiKey.value
    ensures r.Failure? ==> r.error == ConfigError(MissingApiKeyMessage)
  {
    if apiKey.None? || apiKey.value == "" then Failure(ConfigError(MissingApiKeyMessage))
    else Success(Client(apiKey.value))
  }

  /** The wire role of a history turn: only USER is 'user'. */
  function ApiRole(role: Role): (r: string)
    ensures r == "user" <==> role == USER
    ensures r == "model" <==> role != USER
  {
    if role == USER then "user" else "model"
  }

  function ToContent(m: Message): Content
  {
    Content(ApiRole(m.role), [Part(m.content)])
  }

  /** `messages.map(...)` of the history construction. */
  function Turns(ms: seq<Message>): seq<Content>
  {
    if ms == [] then [] else [ToContent(ms[0])] + Turns(ms[1..])
  }

  lemma {:induction false} TurnsMapsEach(ms: seq<Message>)
    ensures |Turns(ms)| == |ms|
    ensures forall i :: 0 <= i < |ms| ==> Turns(ms)[i] == ToContent(ms[i])
  {
    if ms != [] {
      TurnsMapsEach(ms[1..]);
      assert forall i :: 1 <= i < |ms| ==> ms[1..][i - 1] == ms[i];
    }
  }

  /** `messages.slice(0, -1).map(...)`: every message but the last. */
  function History(ms: seq<Message>): seq<Content>
  {
    if |ms| == 0 then [] else Turns(ms[..|ms| - 1])
  }

  /** The `contents` of the chat request: the history followed by a 'user'
      turn holding the last message's content. Reading the last message of an
      empty list throws. */
  function BuildContents(ms: seq<Message>): Result<seq<Content>, ServiceError>
  {
    if |ms| == 0 then Failure(NoLastMessage)
    else Success(History(ms) + [Content("user", [Part(ms[|ms| - 1].content)])])
  }

  /** The request has one turn per message; the last turn is always 'user'
      with the last message's content, whatever that message's role; every
      earlier turn has its message's wire role ('user' for USER, 'model' for
      MODEL and SYSTEM) and that message's content as its only part. */
  lemma ContentsShape(ms: seq<Message>)
    ensures BuildContents(ms).Success? <==> |ms| > 0
    ensures |ms| > 0 ==>
      var cs := BuildContents(ms).value;
      && |cs| == |ms|
      && cs[|ms| - 1] == Content("user", [Part(ms[|ms| - 1].content)])
      && forall i :: 0 <= i < |ms| - 1 ==>
           cs[i] == Content(ApiRole(ms[i].role), [Part(ms[i].content)])
  {
    if |ms| > 0 {
      TurnsMapsEach(ms[..|ms| - 1]);
    }
  }

  /** Only role and content reach the request: two histories that agree on
      them (whatever their ids, timestamps and attachments) give the same
      contents. */
  lemma ContentsIgnoreAttachments(ms: seq<Message>, ms': seq<Message>)
    requires |ms| == |ms'|
    requires forall i :: 0 <= i < |ms| ==> ms[i].role == ms'[i].role && ms[i].content == ms'[i].content
    ensures BuildContents(ms) == BuildContents(ms')
  {
    if |ms| > 0 {
      var n := |ms| - 1;
      TurnsMapsEach(ms[..n]);
      TurnsMapsEach(ms'[..n]);
      assert Turns(ms[..n]) == Turns(ms'[..n]);
    }
  }

  /** `chunk.text || ""`. */
  function ChunkText(c: Option<string>): string
  {
    if c.Some? then c.value else ""
  }

  /** The strings the loop hands to onChunk, one per chunk. */
  function ChunkTexts(cs: seq<Option<string>>): seq<string>
  {
    seq(|cs|, i requires 0 <= i < |cs| => ChunkText(cs[i]))
  }

  /** In-order concatenation with no separator. */
  function Concat(ss: seq<string>): string
  {
    if ss == [] then "" else ss[0] + Concat(ss[1..])
  }

  lemma {:induction false} ConcatSnoc(ss: seq<string>, s: string)
    ensures Concat(ss + [s]) == Concat(ss) + s
  {
    if ss != [] {
      assert (ss + [s])[1..] == ss[1..] + [s];
      ConcatSnoc(ss[1..], s);
    }
  }

  /** What streamChat resolves to or rejects with. */
  function StreamOutcome(apiKey: Option<string>, messages: seq<Message>, response: StreamScript): Result<string, ServiceError>
  {
    if GetClient(apiKey).Failure? then Failure(GetClient(apiKey).error)
    else if |messages| == 0 then Failure(NoLastMessage)
    else if response.fails then Failure(StreamFailed)
    else Success(Concat(ChunkTexts(response.chunks)))
  }

  /** The strings streamChat passes to onChunk, in order. */
  function Delivered(apiKey: Option<string>, messages: seq<Message>, response: StreamScript): seq<string>
  {
    if GetClient(apiKey).Failure? || |messages| == 0 then [] else ChunkTexts(response.chunks)
  }

  /** streamChat. `request` is the call made to the SDK (None when none is
      made) and `delivered` the sequence of onChunk arguments; the result is
      `fullText`, or the error the caller sees. */
  method StreamChat(apiKey: Option<string>, modelId: string, messages: seq<Message>, systemPrompt: string, response: StreamScript)
    returns (outcome: Result<string, ServiceError>, request: Option<Request>, delivered: seq<string>)
    ensures request.Some? <==> GetClient(apiKey).Success? && |messages| > 0
    ensures request.Some? ==> request.value == Request(modelId, BuildContents(messages).value, systemPrompt)
    ensures delivered == Delivered(apiKey, messages, response)
    ensures outcome == StreamOutcome(apiKey, messages, response)
    ensures outcome.Success? ==> outcome.value == Concat(delivered)
  {
    var client := GetClient(apiKey);
    if client.Failure? {
      return Failure(client.error), None, [];
    }
    var history := History(messages);
    if |messages| == 0 {
      return Failure(NoLastMessage), None, [];
    }
    var lastMessage := messages[|messages| - 1].content;
    request := Some(Request(modelId, history + [Content("user", [Part(lastMessage)])], systemPrompt));
    var fullText := "";
    delivered := [];
    var i := 0;
    while i < |response.chunks|
      invariant 0 <= i <= |response.chunks|
      invariant delivered == ChunkTexts(response.chunks[..i])
      invariant fullText == Concat(delivered)
    {
      var text := ChunkText(response.chunks[i]);
      ConcatSnoc(delivered, text);
      fullText := fullText + text;
      delivered := delivered + [text];
      assert ChunkTexts(response.chunks[..i + 1]) == ChunkTexts(response.chunks[..i]) + [text];
      i := i + 1;
    }
    assert response.chunks[..i] == response.chunks;
    if response.fails {
      outcome := Failure(StreamFailed);
    } else {
      outcome := Success(fullText);
    }
  }

  /** generateTitle. getClient runs outside the try, so a missing key rejects
      the call; any other failure, and a missing or empty reply, yields the
      fallback title. A title that comes back is never empty. */
  function GenerateTitle(apiKey: Option<string>, response: TitleResponse): (r: Result<string, ServiceError>)
    ensures r.Failure? <==> GetClient(apiKey).Failure?
    ensures r.Failure? ==> r.error == ConfigError(MissingApiKeyMessage)
    ensures r.Success? ==> r.value != ""
    ensures r.Success? && response.TitleReply? && response.text.Some? && response.text.value != "" ==>
              r.value == response.text.value
    ensures r.Success? && (response.TitleError? || response.text.None? || response.text.value == "") ==>
              r.value == NewConversationTitle
  {
    var client := GetClient(apiKey);
    if client.Failure? then Failure(client.error)
    else match response
      case TitleError => Success(NewConversationTitle)
      case TitleReply(text) =>
        if text.Some? && text.value != "" then Success(text.value) else Success(NewConversationTitle)
  }
}
