# Chat + image generator: a Dafny model of the request pipeline

This project models the decision logic of the chat service in `image_gen.py`:

- the intent classifier `wants_image`, which decides whether a chat message asks for an image;
- the image fallback driver `try_generate_image`, which tries an ordered list of image models;
- the request router `chat`, which short-circuits empty messages, sends image requests to the driver and then to a description request, and sends everything else to one chat completion.

The model also proves properties of these three operations.

The remote capabilities are values of the `Remote.Provider` datatype:

- `generate(model, prompt)`: image generation;
- `fetch(url)`: URL download;
- `complete(model, messages)`: chat completion;
- `b64encode(bytes)`: base64 encoding.

Every operation that uses them returns a `Traced` value. It holds the result and the list of remote calls made, in order. Properties such as "no remote call is made" or "no description is requested" are then statements about that list.

Files:

- `strings.dfy` (module `Strings`): `str.strip()`, ASCII `str.lower()`, `startswith`, the substring test `in`, and the regex word boundary `\b`.
- `classifier.dfy` (module `Classifier`): `wants_image` and its rules.
- `classifier_examples.dfy` (module `ClassifierExamples`): concrete messages and how they are classified.
- `remote.dfy` (module `Remote`): oracle outcomes, messages, the call trace.
- `image_driver.dfy` (module `ImageDriver`): `try_generate_image`.
- `router.dfy` (module `Router`): `chat` and how it builds the completion contexts.

Facts about `image_gen.py` that a reader might not expect, and that the model keeps:

- A response with neither `b64_json` nor `url` ends the driver at once with a failure naming that model (image_gen.py:87-89). Later models are not tried.
- The prompt sent to the image models and to the description request is the stripped message (image_gen.py:103, 112), not the raw one.
- Neither a non-empty image nor a non-empty description is guaranteed. An empty URL body is encoded as is, and empty completion content is used as is. What does hold is proved: the description or reply is empty only when the completion succeeded with empty content (`Router.DescriptionEmptyOnlyIfContentEmpty`).

## Model

| member | source | states |
|---|---|---|
| Strings.IsSpace | image_gen.py:36 | The whitespace set `strip()` removes: Python's `isspace()` characters. It includes space, tab, newline and carriage return, and no ASCII upper-case letter. |
| Strings.LowerChar | image_gen.py:36 | ASCII `lower()` on one character: the result is never upper case, an upper-case letter becomes the same letter in lower case, and any other character is kept. |
| Strings.Lower | image_gen.py:36 | `lower()` keeps the length, turns each upper-case ASCII letter into the same letter in lower case (`LowerChar`), and keeps every other character. No upper-case ASCII letter is left. |
| Strings.Strip | image_gen.py:36 | `strip()` returns a contiguous piece of the text. Everything cut off on either side is whitespace, and the result neither starts nor ends with whitespace. |
| Strings.StripUnique | image_gen.py:36 | Any whitespace-only cut that leaves non-space ends is exactly what `strip()` returns. |
| Strings.StripEmptyIffAllSpace | image_gen.py:103-107 | A text strips to the empty string exactly when it is all whitespace. |
| Strings.StripIdempotent | image_gen.py:36 | Stripping a stripped text changes nothing. |
| Strings.StripLowerCommute | image_gen.py:36 | `lower().strip()` equals `strip().lower()`. |
| Strings.StartsWith | image_gen.py:38 | `startswith(p)` holds exactly when `p` occurs at index 0. |
| Strings.ContainsFrom | image_gen.py:47 | The scan finds the pattern exactly when it occurs at some index at or after the start point. |
| Strings.Contains | image_gen.py:47 | Python's `k in txt` holds exactly when `k` occurs at some index. |
| Strings.IsWordChar | image_gen.py:41-42 | The ASCII class `\w`: every upper-case letter is in it, and no whitespace character is. |
| Strings.LowerKeepsWordChars | image_gen.py:36-42 | Lowercasing never moves a character into or out of `\w`. |
| Strings.BoundaryLower | image_gen.py:36-42 | Lowercasing moves no `\b`: a position of the lowercased text is a boundary exactly when it is one in the original. |
| Strings.Boundary | image_gen.py:41-42 | `\b` at the start or end of the text holds exactly when the first or last character is a word character. Inside the text, `\b` holds exactly between a word character and a non-word character, in either order. |
| Strings.WholeWordAt | image_gen.py:41-43 | A `\bw\b` match at an index is an occurrence of `w` at that index. `Strings.WholeWordIsDelimited` gives the converse for words. |
| Strings.WholeWordFrom | image_gen.py:41-43 | `\bw\b` matches exactly when `w` occurs with a regex word boundary on both sides. |
| Strings.WholeWordIsDelimited | image_gen.py:41-42 | For a word of word characters, a `\b` match is an occurrence with no word character just before or just after it. So the "draw" in "redraw" does not match. |
| Classifier.NormalizeShape | image_gen.py:36 | `Normalize`, the text `lower().strip()`, equals `strip().lower()`. It holds no upper-case letter and neither starts nor ends with whitespace. |
| Classifier.AnyPrefix | image_gen.py:38 | The chain of `startswith` tests holds exactly when the text starts with one of the listed prefixes. |
| Classifier.AnyWholeWord | image_gen.py:41-43 | `re.search` on the alternation succeeds exactly when some listed word matches as a whole word at some index. |
| Classifier.AnyPhrase | image_gen.py:46-47 | `any(k in txt for k in ...)` holds exactly when some listed phrase occurs at some index. |
| Classifier.WantsImage | image_gen.py:33-47 | True exactly when the text is non-empty and its lowercased, stripped form satisfies the prefix rule, or the whole-word verb and noun rule, or the substring rule. |
| Classifier.DependsOnlyOnNormalForm | image_gen.py:34-36 | Two texts with the same lowercased, stripped form are classified alike. This includes the empty text. |
| Classifier.IgnoresCase | image_gen.py:36 | Lowercasing the input first never changes the answer. |
| Classifier.IgnoresSurroundingSpace | image_gen.py:34-36 | Stripping the input first never changes the answer. This includes whitespace-only input. |
| Classifier.EmptyNormalFormIsNotImage | image_gen.py:34-47 | A text that is empty after lowercasing and stripping is never an image request. |
| Classifier.PrefixMakesImage | image_gen.py:38-39 | A normal form that starts with "image:", "picture:" or "photo:" makes an image request. |
| Classifier.VerbAndNounMakeImage | image_gen.py:41-44 | A whole-word verb and a whole-word noun make an image request, in any order and at any distance. |
| Classifier.RenderAloneMakesImage | image_gen.py:41-44 | "render" is in both word lists, so a whole-word "render" alone makes an image request. |
| Classifier.PhraseMakesImage | image_gen.py:46-47 | Any of the six trigger phrases, anywhere in the normal form, makes an image request. |
| Classifier.OnlyRulesMakeImage | image_gen.py:38-47 | When no rule holds, the answer is false. |
| ClassifierExamples.ShoutedPrefixIsImage | image_gen.py:36-39 | "  IMAGE: a cat" is an image request. |
| ClassifierExamples.VerbNounSentenceIsImage | image_gen.py:41-44 | "please generate a portrait of my dog" is an image request. |
| ClassifierExamples.PhraseSentenceIsImage | image_gen.py:46-47 | "picture of a sunset" is an image request. |
| ClassifierExamples.EmbeddedVerbStillTriggersPhrase | image_gen.py:41-47 | In "redraw it", "draw" is not a whole word. The text is still an image request, because the phrase "draw " matches as a plain substring. |
| ClassifierExamples.PlainStatementIsText | image_gen.py:33-47 | "i like cats" is not an image request. |
| ImageDriver.MissingShapeError | image_gen.py:89 | The error for an answer of neither shape names the model. |
| ImageDriver.AllFailedError | image_gen.py:98 | The error after every model raised carries the last error, or the text "None" when no model was tried. |
| ImageDriver.TryModel | image_gen.py:72-96 | One loop turn asks the model first and makes at most one more call. A non-empty `b64_json` wins over a URL. A download happens exactly when there is no non-empty `b64_json` but a non-empty `url`, so an empty `b64_json` with a URL is downloaded. The turn fails when the call or the download raises, and it carries that error. It is unrecognized when the answer has neither shape. |
| ImageDriver.TryModels | image_gen.py:69-98 | The models asked form a non-empty prefix of the list, in list order. A success names a model of the list. |
| ImageDriver.TryGenerateImage | image_gen.py:60-98 | With the configured list, between one and three models are asked, and a success names one of them. |
| ImageDriver.ResultIsExpected | image_gen.py:69-98 | The loop equals the reference definition. The first model that did not raise decides the result: its image, or an error naming it. If all models raised, the error carries the last error. |
| ImageDriver.ExpectedStep | image_gen.py:71-98 | One step of the reference: a raising first model hands its error on to the rest of the list as the last error; a first model that produced an image, or answered with neither shape, decides the result. |
| ImageDriver.AskedModels | image_gen.py:71-96 | Exactly the models up to the deciding one are asked, or all of them when every model raised. |
| ImageDriver.AskedStep | image_gen.py:71-96 | The first model is always asked. The remaining models are asked, as for the rest of the list, exactly when the first one raised. |
| ImageDriver.DecisiveIsUnique | image_gen.py:71-96 | The deciding model is the only one whose predecessors all raised while it did not. |
| ImageDriver.SuccessIsFirstProducer | image_gen.py:71-91 | On success, `model_used` is the first model that produced an image, every earlier model raised, and no later model was asked. |
| ImageDriver.FirstProducerWins | image_gen.py:71-91 | When the models before `k` raise and model `k` produces an image, the result is that image from model `k`, and exactly `k + 1` models were asked. |
| ImageDriver.UnrecognizedStopsLoop | image_gen.py:87-89 | An answer with neither inline data nor a URL ends the loop at once with an error naming that model. Later models are not asked. |
| ImageDriver.AllRaisedCarriesLastError | image_gen.py:92-98 | When every model raises, all of them are asked and the error carries the last model's error. |
| ImageDriver.ThirdModelAfterTwoFailures | image_gen.py:68-96 | If "dall-e-3" and "gpt-image-1" raise and "gpt-image-1-mini" produces an image, the result names "gpt-image-1-mini", and all three models were asked in order. |
| ImageDriver.AllModelsRaise | image_gen.py:68-98 | With the configured list, when every generation call raises, all three models are asked and the error carries the message raised by "gpt-image-1-mini". |
| ImageDriver.FirstModelUnrecognized | image_gen.py:68-89 | An unrecognized answer from "dall-e-3" fails the attempt, and no other model is asked. |
| Router.LastTurns | image_gen.py:124 | For `n > 0`, `history[-n:]` is the last `n` turns, or all turns when there are fewer. |
| Router.TurnMessage | image_gen.py:125-126 | A turn's role is "user" exactly when `is_user` is true, and otherwise "assistant"; never "system". The content is the turn's text, or "" when it is missing. |
| Router.TurnMessages | image_gen.py:124-126 | Each turn becomes one message, in order. |
| Router.Chat | image_gen.py:101-155 | No remote call is made exactly when the stripped message is empty, and then the reply is "Please send a message.". An error or image response happens only for image requests. An error is never followed by a completion call. |
| Router.ImageCallsOnly | image_gen.py:112-114 | The image driver makes no chat-completion call. |
| Router.BlankMessageShortCircuits | image_gen.py:103-108 | A whitespace-only message gets the fixed reply, and no remote call is made. |
| Router.ImagePathIffWantsImage | image_gen.py:103-111 | The image path (image or error) is taken exactly when the raw message is an image request. |
| Router.ImageFailureIsError | image_gen.py:111-114 | A failed generation returns the driver's error. Only the driver's calls are made, so no description is requested. |
| Router.ImageSuccessIsDescribed | image_gen.py:111-139 | A generated image is the one the reference definition of the driver picks: that of the first model, in list order, that did not raise. The models asked are exactly the driver's. The description request is the last call and the only completion call, and it carries the description context. |
| Router.TextPathMakesOneCompletion | image_gen.py:141-155 | A non-image message gets exactly one remote call, the chat completion, and no image model is asked. The completion carries the chat context. The response is always text: the reply, or a non-empty placeholder when the completion failed. |
| Router.DescribeMessages | image_gen.py:122-127 | The description context is one system message, the last six turns (or fewer) in order, then the user instruction with the prompt. It has at most 8 messages. |
| Router.ChatMessages | image_gen.py:143-147 | The chat context is one system message, the last twenty turns (or fewer) in order, then the message. It has at most 22 messages. |
| Router.DescriptionText | image_gen.py:129-132 | A successful description request gives its content unchanged. A failed one gives a non-empty placeholder that contains the error. |
| Router.ReplyText | image_gen.py:149-153 | A successful chat request gives its content unchanged. A failed one gives a non-empty placeholder that contains the error. |
| Router.DescriptionEmptyOnlyIfContentEmpty | image_gen.py:129-132 | The description is empty only when the completion succeeded with empty content. A failure gives a non-empty placeholder. |
| Router.ReplyEmptyOnlyIfContentEmpty | image_gen.py:150-153 | The chat reply is empty only when the completion succeeded with empty content. |

## Left out

- Application setup (image_gen.py:1-30, 50-57) is not modelled: the FastAPI app, CORS middleware, the `/health` route, the pydantic request model, `.env` loading and the API-key check. It is framework and environment plumbing with no decisions.
- The remote calls are not modelled. `client.images.generate`, `client.chat.completions.create` and `requests.get` are foreign network calls, so they are oracle functions of a `Provider`. Their effects appear only as entries of the returned call trace.
- Base64 encoding is not modelled. It is an uninterpreted function of the `Provider`.
- Constant call arguments are not modelled: the image size "1024x1024", the temperature 0.2, and the 30-second download timeout. They carry no logic. A timeout is one of the ways a download fails.
- Exception messages are arbitrary strings chosen by the oracle. The model does not fix the wording of `str(e)`.
- Exceptions raised inside the image loop but outside the oracles are folded into `Raised`. An example is indexing the first entry of an empty `data` list. These exceptions behave the same way: the loop moves on to the next model.
- Unicode lowercasing and the Unicode `\w` class are not modelled. Lowercasing and word characters are ASCII only. `strip()` does use Python's full whitespace set.
- History entries that are not JSON objects are not modelled. For such an entry, `h.get` raises. The description path would catch this and use a placeholder; the chat path would not catch it. Non-boolean truthy `is_user` values are not modelled either: `is_user` is optional and boolean.
- A history turn whose `text` key is present with the value null is treated like a turn without `text`. Python's `h.get("text", "")` returns `None` there and sends it as the content; the model sends "". Such a turn can arise when a completion returned no content and the client stored that as the turn's text.
- Chat-completion content of `None` is not modelled. Content is always a string.
- `streamlit_image_gen.py`, `ui_interface/basic_app.py` and `rag_agentic/tts_tool.py` are not part of this model. They are UI code and a thin speech-synthesis wrapper with no decision logic.
