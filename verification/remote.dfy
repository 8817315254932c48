/**
 The remote capabilities the chat service depends on, as values: the image
 generation call, the URL download, the chat-completion call and base64
 encoding are fields of a `Provider`, and every operation that may use them
 returns, next to its result, the trace of remote calls it made, in order.
 */
module Remote {

  /** An optional value: a key missing from a JSON object, an attribute
      missing from a response, or Python's `None`. */
  datatype Option<T> = None | Some(value: T)

  /** The value when there is one, else `fallback`; `h.get("text", "")` and
      an f-string rendering `None` both read an `Option` this way. */
  function OrElse<T>(o: Option<T>, fallback: T): T {
    match o
    case Some(v) => v
    case None => fallback
  }

  newtype byte = x: int | 0 <= x < 256

  /** Python truthiness of an optional string attribute: present and non-empty. */
  predicate Truthy(o: Option<string>) {
    o.Some? && o.value != ""
  }

  /** The first entry of an image-generation response: it may carry inline
      base64 data, a URL to download, both or neither. */
  datatype ImageEntry = ImageEntry(b64Json: Option<string>, url: Option<string>)

  /** What one image-generation call does: it raises (a provider error, or a
      response with no first entry), or it returns an entry. */
  datatype GenOutcome = Raised(err: string) | Returned(entry: ImageEntry)

  /** A download either yields the body, or raises (timeout, transport
      failure, or a non-success HTTP status). */
  datatype FetchOutcome = Fetched(body: seq<byte>) | FetchFailed(err: string)

  datatype Role = System | User | Assistant

  /** One message of a chat-completion request. */
  datatype Message = Message(role: Role, content: string)

  /** A chat-completion call yields the first choice's content, or raises. */
  datatype Completion = Completed(content: string) | CompletionFailed(err: string)

  /** One remote call, as recorded in a trace. */
  datatype Call =
    | GenerateCall(model: string, prompt: string)
    | FetchCall(url: string)
    | CompleteCall(model: string, messages: seq<Message>)

  /** The remote capabilities. `generate` takes the model name and the prompt. */
  datatype Provider = Provider(
    generate: (string, string) -> GenOutcome,
    fetch: string -> FetchOutcome,
    complete: (string, seq<Message>) -> Completion,
    b64encode: seq<byte> -> string)

  /** A result together with the remote calls made to obtain it. */
  datatype Traced<T> = Traced(value: T, calls: seq<Call>)

  /** The models asked for an image, in the order they were asked. */
  function GeneratedModels(calls: seq<Call>): seq<string> {
    if calls == [] then []
    else (if calls[0].GenerateCall? then [calls[0].model] else []) + GeneratedModels(calls[1..])
  }

  /** The trace contains a chat-completion call. */
  predicate HasCompletion(calls: seq<Call>) {
    exists k :: 0 <= k < |calls| && calls[k].CompleteCall?
  }

  lemma {:induction false} GeneratedModelsAppend(a: seq<Call>, b: seq<Call>)
    ensures GeneratedModels(a + b) == GeneratedModels(a) + GeneratedModels(b)
  {
    if a == [] {
      assert a + b == b;
    } else {
      assert (a + b)[0] == a[0];
      assert (a + b)[1..] == a[1..] + b;
      GeneratedModelsAppend(a[1..], b);
    }
  }
}
