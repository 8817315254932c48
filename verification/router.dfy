/**
 The request router `chat`: strips the message, short-circuits an empty one,
 and otherwise sends it down the image path (generate, then describe) or the
 text path (one chat completion). Completion failures become placeholder
 text; only an image failure surfaces as an error response.
 */
module Router {
  import opened Strings
  import opened Remote
  import opened Classifier
  import opened ImageDriver

  /** One turn of the caller's history. Either key may be missing from the
      JSON object the caller sends. */
  datatype Turn = Turn(isUser: Option<bool>, text: Option<string>)

  datatype ChatResponse =
    | TextResponse(response: string)
    | ImageResponse(imageB64: string, description: string, modelUsed: string)
    | ErrorResponse(message: string)

  const CompletionModel: string := "gpt-4.1-mini"
  const EmptyMessageReply: string := "Please send a message."
  const DescribeSystemPrompt: string := "You write short 2-4 sentence image descriptions."
  const DescribeInstruction: string := "Write a short (2-4 sentence) description for this image: "
  const ChatSystemPrompt: string := "You are a helpful assistant."
  const DescribeContextTurns: nat := 6
  const ChatContextTurns: nat := 20

  /** Python's `history[-n:]` for n > 0: the last `n` turns, or all of them
      when there are fewer. (`history[-0:]` would be the whole list.) */
  function LastTurns(history: seq<Turn>, n: nat): (r: seq<Turn>)
    requires n > 0
    ensures |r| == if |history| < n then |history| else n
    ensures r == history[|history| - |r|..]
  {
    if |history| <= n then history else history[|history| - n..]
  }

  /** A turn becomes a "user" message when `is_user` is true and an
      "assistant" message otherwise; a missing text becomes "". */
  function TurnMessage(t: Turn): (m: Message)
    ensures m.role == User <==> t.isUser == Some(true)
    ensures m.role != System
    ensures t.text.Some? ==> m.content == t.text.value
    ensures t.text.None? ==> m.content == ""
  {
    Message(if t.isUser == Some(true) then User else Assistant, OrElse(t.text, ""))
  }

  function TurnMessages(turns: seq<Turn>): (ms: seq<Message>)
    ensures |ms| == |turns|
    ensures forall i :: 0 <= i < |turns| ==> ms[i] == TurnMessage(turns[i])
  {
    seq(|turns|, i requires 0 <= i < |turns| => TurnMessage(turns[i]))
  }

  /** The context of the description request: the system instruction, at
      most the last six turns in order, and the instruction embedding the
      prompt; at most 8 messages. */
  function DescribeMessages(prompt: string, history: seq<Turn>): (msgs: seq<Message>)
    ensures ContextShape(msgs, DescribeSystemPrompt, history, DescribeContextTurns,
                         DescribeInstruction + prompt)
    ensures |msgs| <= 8
  {
    ContextOf(DescribeSystemPrompt, history, DescribeContextTurns, DescribeInstruction + prompt);
    [Message(System, DescribeSystemPrompt)]
    + TurnMessages(LastTurns(history, DescribeContextTurns))
    + [Message(User, DescribeInstruction + prompt)]
  }

  /** The context of the chat request: the system instruction, at most the
      last twenty turns in order, and the message itself; at most 22
      messages. */
  function ChatMessages(message: string, history: seq<Turn>): (msgs: seq<Message>)
    ensures ContextShape(msgs, ChatSystemPrompt, history, ChatContextTurns, message)
    ensures |msgs| <= 22
  {
    ContextOf(ChatSystemPrompt, history, ChatContextTurns, message);
    [Message(System, ChatSystemPrompt)]
    + TurnMessages(LastTurns(history, ChatContextTurns))
    + [Message(User, message)]
  }

  /** A completion's content, or the placeholder the description path puts
      in its place. */
  function DescriptionText(c: Completion): (d: string)
    ensures c.Completed? ==> d == c.content
    ensures c.CompletionFailed? ==> d != [] && exists i :: OccursAt(d, c.err, i)
  {
    match c
    case Completed(content) => content
    case CompletionFailed(e) =>
      OccursBetween("(Could not generate description: ", e, ")");
      "(Could not generate description: " + e + ")"
  }

  /** A completion's content, or the placeholder the text path puts in its
      place. */
  function ReplyText(c: Completion): (t: string)
    ensures c.Completed? ==> t == c.content
    ensures c.CompletionFailed? ==> t != [] && exists i :: OccursAt(t, c.err, i)
  {
    match c
    case Completed(content) => content
    case CompletionFailed(e) =>
      OccursBetween("Sorry — chat generation failed: ", e, "");
      assert "Sorry — chat generation failed: " + e + "" == "Sorry — chat generation failed: " + e;
      "Sorry — chat generation failed: " + e
  }

  /** `chat(req)`: route one request and record every remote call made.
      No call is made exactly when the stripped message is empty; only the
      image path can give an error, and an error is never followed by a
      description request. */
  function Chat(p: Provider, message: string, history: seq<Turn>): (r: Traced<ChatResponse>)
    ensures r.calls == [] <==> Strip(message) == []
    ensures Strip(message) == [] ==> r.value == TextResponse(EmptyMessageReply)
    ensures r.value.ErrorResponse? ==> WantsImage(Strip(message)) && !HasCompletion(r.calls)
    ensures r.value.ImageResponse? ==> WantsImage(Strip(message))
  {
    var m := Strip(message);
    if m == [] then
      Traced(TextResponse(EmptyMessageReply), [])
    else if WantsImage(m) then
      var img := TryGenerateImage(p, m);
      match img.value
      case ImageErr(e) =>
        ImageCallsOnly(p, m);
        Traced(ErrorResponse(e), img.calls)
      case ImageOk(b64, model) =>
        var msgs := DescribeMessages(m, history);
        Traced(ImageResponse(b64, DescriptionText(p.complete(CompletionModel, msgs)), model),
               img.calls + [CompleteCall(CompletionModel, msgs)])
    else
      var msgs := ChatMessages(m, history);
      Traced(TextResponse(ReplyText(p.complete(CompletionModel, msgs))),
             [CompleteCall(CompletionModel, msgs)])
  }

  /** The image driver makes no chat-completion call. */
  lemma ImageCallsOnly(p: Provider, prompt: string)
    ensures !HasCompletion(TryGenerateImage(p, prompt).calls)
  {
    TryModelsMakesNoCompletion(p, ImageModels, prompt, None);
  }

  lemma {:induction false} TryModelsMakesNoCompletion(p: Provider, models: seq<string>, prompt: string, last: Option<string>)
    ensures !HasCompletion(TryModels(p, models, prompt, last).calls)
    decreases |models|
  {
    if models != [] {
      var a := TryModel(p, models[0], prompt);
      assert !HasCompletion(a.calls);
      if a.value.Failed? {
        TryModelsMakesNoCompletion(p, models[1..], prompt, Some(a.value.err));
        var rest := TryModels(p, models[1..], prompt, Some(a.value.err));
        assert forall k :: 0 <= k < |a.calls + rest.calls| ==>
          (a.calls + rest.calls)[k] == if k < |a.calls| then a.calls[k] else rest.calls[k - |a.calls|];
      }
    }
  }

  /** A message of whitespace only gets the fixed reply and no remote call
      is made. */
  lemma BlankMessageShortCircuits(p: Provider, message: string, history: seq<Turn>)
    requires AllSpace(message)
    ensures Chat(p, message, history) == Traced(TextResponse(EmptyMessageReply), [])
  {
    StripEmptyIffAllSpace(message);
  }

  /** The image path (an image or an error) is taken exactly when the raw
      message is an image request; stripping it first changes nothing. */
  lemma ImagePathIffWantsImage(p: Provider, message: string, history: seq<Turn>)
    ensures var r := Chat(p, message, history);
            r.value.ImageResponse? || r.value.ErrorResponse? <==> WantsImage(message)
  {
    IgnoresSurroundingSpace(message);
  }

  /** A failed image generation is returned as an error carrying the
      driver's message; the only remote calls are the driver's, so no
      description is requested. */
  lemma ImageFailureIsError(p: Provider, message: string, history: seq<Turn>)
    requires Strip(message) != [] && WantsImage(Strip(message))
    requires TryGenerateImage(p, Strip(message)).value.ImageErr?
    ensures var img := TryGenerateImage(p, Strip(message));
            var r := Chat(p, message, history);
            && r.value == ErrorResponse(img.value.error)
            && r.calls == img.calls
            && !HasCompletion(r.calls)
  {
  }

  /** A generated image is returned with its model and a description. The
      image and model are those of the first model, in list order, that did
      not raise; the models asked are exactly those the driver asks. The
      description request is the last call and the only completion call, and
      it carries the description context. A failed description is replaced by
      a placeholder, so the response is still an image. */
  lemma ImageSuccessIsDescribed(p: Provider, message: string, history: seq<Turn>)
    requires Strip(message) != [] && WantsImage(Strip(message))
    requires TryGenerateImage(p, Strip(message)).value.ImageOk?
    ensures var m := Strip(message);
            var msgs := DescribeMessages(m, history);
            var r := Chat(p, message, history);
            && r.value.ImageResponse?
            && ImageOk(r.value.imageB64, r.value.modelUsed) == Expected(p, ImageModels, m, None)
            && r.value.description == DescriptionText(p.complete(CompletionModel, msgs))
            && GeneratedModels(r.calls) == Asked(p, ImageModels, m)
            && |r.calls| >= 2
            && r.calls[|r.calls| - 1] == CompleteCall(CompletionModel, msgs)
            && !HasCompletion(r.calls[..|r.calls| - 1])
            && ContextShape(msgs, DescribeSystemPrompt, history, DescribeContextTurns,
                            DescribeInstruction + m)
  {
    var m := Strip(message);
    var img := TryGenerateImage(p, m);
    var call := CompleteCall(CompletionModel, DescribeMessages(m, history));
    var r := Chat(p, message, history);
    assert r.calls == img.calls + [call];
    assert r.calls[..|r.calls| - 1] == img.calls;
    ResultIsExpected(p, ImageModels, m, None);
    AskedModels(p, ImageModels, m, None);
    GeneratedModelsAppend(img.calls, [call]);
    ImageCallsOnly(p, m);
  }

  /** A message that is not an image request gets exactly one remote call,
      the chat completion, which carries the chat context; no image model is
      asked. The response is always text: the reply, or a non-empty
      placeholder when the completion failed. */
  lemma TextPathMakesOneCompletion(p: Provider, message: string, history: seq<Turn>)
    requires Strip(message) != [] && !WantsImage(Strip(message))
    ensures var m := Strip(message);
            var msgs := ChatMessages(m, history);
            var r := Chat(p, message, history);
            && r.value == TextResponse(ReplyText(p.complete(CompletionModel, msgs)))
            && (p.complete(CompletionModel, msgs).CompletionFailed? ==> r.value.response != [])
            && r.calls == [CompleteCall(CompletionModel, msgs)]
            && GeneratedModels(r.calls) == []
            && ContextShape(msgs, ChatSystemPrompt, history, ChatContextTurns, m)
  {
  }

  /** Context of a completion request: one system message, then the last
      `n` turns of the history in their original order, then one user
      message. */
  ghost predicate ContextShape(msgs: seq<Message>, system: string, history: seq<Turn>, n: nat, final: string) {
    var k := if |history| < n then |history| else n;
    && |msgs| == k + 2
    && msgs[0] == Message(System, system)
    && (forall i :: 1 <= i <= k ==> msgs[i] == TurnMessage(history[|history| - k + i - 1]))
    && msgs[k + 1] == Message(User, final)
  }

  /** Both requests are built the same way: a system message, the last `n`
      turns, a final user message. */
  lemma ContextOf(system: string, history: seq<Turn>, n: nat, final: string)
    requires n > 0
    ensures ContextShape([Message(System, system)] + TurnMessages(LastTurns(history, n))
                         + [Message(User, final)], system, history, n, final)
  {
    var last := LastTurns(history, n);
    var mid := TurnMessages(last);
    var head := [Message(System, system)] + mid;
    var msgs := head + [Message(User, final)];
    var k := |last|;
    forall i | 1 <= i <= k
      ensures msgs[i] == TurnMessage(history[|history| - k + i - 1])
    {
      assert msgs[i] == head[i] == mid[i - 1];
      assert last[i - 1] == history[|history| - k + i - 1];
    }
    assert msgs[k + 1] == Message(User, final);
  }

  /** The description is empty only when the completion succeeded with empty
      content: a failure is replaced by a non-empty placeholder. */
  lemma DescriptionEmptyOnlyIfContentEmpty(c: Completion)
    ensures DescriptionText(c) == [] <==> c == Completed([])
  {
  }

  /** Likewise for the chat reply. */
  lemma ReplyEmptyOnlyIfContentEmpty(c: Completion)
    ensures ReplyText(c) == [] <==> c == Completed([])
  {
  }
}
