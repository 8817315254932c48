/**
 The image fallback driver `try_generate_image`: asks each model of a fixed,
 ordered list for an image until one answers. Inline base64 data is used as
 is; a URL is downloaded and encoded. A raised error (including a failed
 download) moves on to the next model; a response with neither inline data
 nor a URL ends the whole attempt at once.
 */
module ImageDriver {
  import opened Strings
  import opened Remote

  const ImageModels: seq<string> := ["dall-e-3", "gpt-image-1", "gpt-image-1-mini"]

  datatype ImageResult = ImageOk(imageB64: string, modelUsed: string) | ImageErr(error: string)

  /** How one model's turn ends. */
  datatype Attempt = Produced(imageB64: string) | Unrecognized | Failed(err: string)

  /** The error for an answer of neither shape; it names the model. */
  function MissingShapeError(model: string): (e: string)
    ensures exists i :: OccursAt(e, model, i)
  {
    OccursBetween("Image response missing b64_json/url from model ", model, ".");
    "Image response missing b64_json/url from model " + model + "."
  }

  /** The error when every model raised; it carries the last error, and
      Python renders a missing exception as "None". */
  function AllFailedError(last: Option<string>): (e: string)
    ensures last.Some? ==> exists i :: OccursAt(e, last.value, i)
    ensures last.None? ==> exists i :: OccursAt(e, "None", i)
  {
    var shown := OrElse(last, "None");
    OccursBetween("All image model attempts failed. Last error: ", shown, "");
    assert "All image model attempts failed. Last error: " + shown + ""
        == "All image model attempts failed. Last error: " + shown;
    "All image model attempts failed. Last error: " + shown
  }

  /** One turn of the loop: ask `model`, then read the shape of the answer.
      Non-empty inline data wins over a URL; the download is made only when
      there is no non-empty inline image but a non-empty URL; the turn fails,
      carrying the raised error, when the call or the download raises, and is
      unrecognized when the answer has neither shape. */
  function TryModel(p: Provider, model: string, prompt: string): (r: Traced<Attempt>)
    ensures GeneratedModels(r.calls) == [model]
    ensures 1 <= |r.calls| <= 2
    ensures r.calls[0] == GenerateCall(model, prompt)
    ensures |r.calls| == 2 <==>
              p.generate(model, prompt).Returned?
              && !Truthy(p.generate(model, prompt).entry.b64Json)
              && Truthy(p.generate(model, prompt).entry.url)
    ensures |r.calls| == 2 ==> r.calls[1] == FetchCall(p.generate(model, prompt).entry.url.value)
    ensures r.value.Unrecognized? <==>
              p.generate(model, prompt).Returned?
              && !Truthy(p.generate(model, prompt).entry.b64Json)
              && !Truthy(p.generate(model, prompt).entry.url)
    ensures r.value.Failed? <==>
              p.generate(model, prompt).Raised?
              || (|r.calls| == 2 && p.fetch(p.generate(model, prompt).entry.url.value).FetchFailed?)
    ensures r.value.Failed? && p.generate(model, prompt).Raised? ==>
              r.value.err == p.generate(model, prompt).err
    ensures r.value.Failed? && p.generate(model, prompt).Returned? ==>
              r.value.err == p.fetch(p.generate(model, prompt).entry.url.value).err
    ensures r.value.Produced? ==>
              var entry := p.generate(model, prompt).entry;
              if Truthy(entry.b64Json) then r.value.imageB64 == entry.b64Json.value
              else r.value.imageB64 == p.b64encode(p.fetch(entry.url.value).body)
  {
    var call := GenerateCall(model, prompt);
    match p.generate(model, prompt)
    case Raised(e) => Traced(Failed(e), [call])
    case Returned(entry) =>
      if Truthy(entry.b64Json) then
        Traced(Produced(entry.b64Json.value), [call])
      else if Truthy(entry.url) then
        var url := entry.url.value;
        var calls := [call, FetchCall(url)];
        GeneratedModelsAppend([call], [FetchCall(url)]);
        assert calls == [call] + [FetchCall(url)];
        match p.fetch(url)
        case Fetched(body) => Traced(Produced(p.b64encode(body)), calls)
        case FetchFailed(e) => Traced(Failed(e), calls)
      else
        Traced(Unrecognized, [call])
  }

  /** The loop over `models`, `last` being the most recent error so far. The
      models asked form a prefix of the list, and a success names a model of
      the list. */
  function TryModels(p: Provider, models: seq<string>, prompt: string, last: Option<string>)
    : (r: Traced<ImageResult>)
    ensures GeneratedModels(r.calls) <= models
    ensures models != [] ==> |GeneratedModels(r.calls)| >= 1
    ensures r.value.ImageOk? ==> r.value.modelUsed in models
    decreases |models|
  {
    if models == [] then
      Traced(ImageErr(AllFailedError(last)), [])
    else
      var a := TryModel(p, models[0], prompt);
      match a.value
      case Produced(img) => Traced(ImageOk(img, models[0]), a.calls)
      case Unrecognized => Traced(ImageErr(MissingShapeError(models[0])), a.calls)
      case Failed(e) =>
        var rest := TryModels(p, models[1..], prompt, Some(e));
        GeneratedModelsAppend(a.calls, rest.calls);
        Traced(rest.value, a.calls + rest.calls)
  }

  /** `try_generate_image(prompt)`: the loop over the configured models. At
      least one and at most all three models are asked, and a success names
      one of them. */
  function TryGenerateImage(p: Provider, prompt: string): (r: Traced<ImageResult>)
    ensures 1 <= |GeneratedModels(r.calls)| <= |ImageModels|
    ensures r.value.ImageOk? ==> r.value.modelUsed in ImageModels
  {
    TryModels(p, ImageModels, prompt, None)
  }

  /** Every model before index `k` raised. */
  ghost predicate FailedBefore(p: Provider, models: seq<string>, prompt: string, k: int)
    requires 0 <= k <= |models|
  {
    forall j :: 0 <= j < k ==> TryModel(p, models[j], prompt).value.Failed?
  }

  /** The index of the first model that did not raise, or `|models|`. */
  ghost function Decisive(p: Provider, models: seq<string>, prompt: string): (k: nat)
    ensures k <= |models|
    ensures FailedBefore(p, models, prompt, k)
    ensures k < |models| ==> !TryModel(p, models[k], prompt).value.Failed?
    decreases |models|
  {
    if models == [] || !TryModel(p, models[0], prompt).value.Failed? then 0
    else 1 + Decisive(p, models[1..], prompt)
  }

  /** Reference definition of the loop's result: it is decided by the first
      model that did not raise. That model produced an image (success naming
      it) or answered with neither shape (failure naming it); if every model
      raised, the failure carries the last error, or `last` when the list is
      empty. */
  ghost function Expected(p: Provider, models: seq<string>, prompt: string, last: Option<string>)
    : ImageResult
  {
    var k := Decisive(p, models, prompt);
    if k == |models| then
      ImageErr(AllFailedError(
        if models == [] then last else Some(TryModel(p, models[|models| - 1], prompt).value.err)))
    else
      match TryModel(p, models[k], prompt).value
      case Produced(img) => ImageOk(img, models[k])
      case _ => ImageErr(MissingShapeError(models[k]))
  }

  /** The models a run asks: those up to and including the deciding one, or
      all of them when every model raised. */
  ghost function Asked(p: Provider, models: seq<string>, prompt: string): seq<string> {
    var k := Decisive(p, models, prompt);
    if k == |models| then models else models[..k + 1]
  }

  /** The loop computes the reference result. */
  lemma {:induction false} ResultIsExpected(p: Provider, models: seq<string>, prompt: string, last: Option<string>)
    ensures TryModels(p, models, prompt, last).value == Expected(p, models, prompt, last)
    decreases |models|
  {
    if models != [] {
      var a := TryModel(p, models[0], prompt);
      ExpectedStep(p, models, prompt, last);
      if a.value.Failed? {
        ResultIsExpected(p, models[1..], prompt, Some(a.value.err));
      }
    }
  }

  /** `Expected` one model at a time: a raising first model hands its error on
      to the rest of the list; any other first model decides the result. */
  lemma ExpectedStep(p: Provider, models: seq<string>, prompt: string, last: Option<string>)
    requires models != []
    ensures var a := TryModel(p, models[0], prompt).value;
            a.Failed? ==> Expected(p, models, prompt, last) == Expected(p, models[1..], prompt, Some(a.err))
    ensures var a := TryModel(p, models[0], prompt).value;
            a.Produced? ==> Expected(p, models, prompt, last) == ImageOk(a.imageB64, models[0])
    ensures var a := TryModel(p, models[0], prompt).value;
            a.Unrecognized? ==> Expected(p, models, prompt, last) == ImageErr(MissingShapeError(models[0]))
  {
    if TryModel(p, models[0], prompt).value.Failed? && |models| > 1 {
      assert models[1..][|models[1..]| - 1] == models[|models| - 1];
    }
  }

  /** The loop asks exactly the models `Asked` names, in list order. */
  lemma {:induction false} AskedModels(p: Provider, models: seq<string>, prompt: string, last: Option<string>)
    ensures GeneratedModels(TryModels(p, models, prompt, last).calls) == Asked(p, models, prompt)
    decreases |models|
  {
    if models != [] {
      var a := TryModel(p, models[0], prompt);
      AskedStep(p, models, prompt);
      if a.value.Failed? {
        var rest := TryModels(p, models[1..], prompt, Some(a.value.err));
        assert TryModels(p, models, prompt, last).calls == a.calls + rest.calls;
        AskedModels(p, models[1..], prompt, Some(a.value.err));
        GeneratedModelsAppend(a.calls, rest.calls);
      } else {
        assert TryModels(p, models, prompt, last).calls == a.calls;
      }
    }
  }

  /** `Asked` one model at a time: the first model is always asked, and the
      rest are asked as in the remaining list exactly when it raised. */
  lemma AskedStep(p: Provider, models: seq<string>, prompt: string)
    requires models != []
    ensures TryModel(p, models[0], prompt).value.Failed? ==>
              Asked(p, models, prompt) == [models[0]] + Asked(p, models[1..], prompt)
    ensures !TryModel(p, models[0], prompt).value.Failed? ==>
              Asked(p, models, prompt) == [models[0]]
  {
    var k := Decisive(p, models, prompt);
    if TryModel(p, models[0], prompt).value.Failed? {
      assert k == 1 + Decisive(p, models[1..], prompt);
      if k < |models| {
        assert [models[0]] + models[1..][..k] == models[..k + 1];
      } else {
        assert [models[0]] + models[1..] == models;
      }
    } else {
      assert models[..1] == [models[0]];
    }
  }

  /** `Decisive` is the only index with every earlier model raising and this
      one not raising. */
  lemma DecisiveIsUnique(p: Provider, models: seq<string>, prompt: string, k: int)
    requires 0 <= k < |models|
    requires FailedBefore(p, models, prompt, k)
    requires !TryModel(p, models[k], prompt).value.Failed?
    ensures Decisive(p, models, prompt) == k
  {
  }

  /** On success the model used is the first one, in list order, that
      produced an image; every earlier model raised, and no later model was
      asked. */
  lemma SuccessIsFirstProducer(p: Provider, models: seq<string>, prompt: string, last: Option<string>)
    requires TryModels(p, models, prompt, last).value.ImageOk?
    ensures var r := TryModels(p, models, prompt, last);
            exists k :: 0 <= k < |models|
              && models[k] == r.value.modelUsed
              && FailedBefore(p, models, prompt, k)
              && TryModel(p, models[k], prompt).value == Produced(r.value.imageB64)
              && GeneratedModels(r.calls) == models[..k + 1]
  {
    ResultIsExpected(p, models, prompt, last);
    AskedModels(p, models, prompt, last);
    var k := Decisive(p, models, prompt);
    assert k < |models|;
  }

  /** Conversely, when the models before `k` raise and model `k` produces an
      image, the result is that image from model `k`, and exactly the first
      `k + 1` models were asked. */
  lemma FirstProducerWins(p: Provider, models: seq<string>, prompt: string, last: Option<string>, k: int)
    requires 0 <= k < |models|
    requires FailedBefore(p, models, prompt, k)
    requires TryModel(p, models[k], prompt).value.Produced?
    ensures var r := TryModels(p, models, prompt, last);
            && r.value == ImageOk(TryModel(p, models[k], prompt).value.imageB64, models[k])
            && GeneratedModels(r.calls) == models[..k + 1]
  {
    DecisiveIsUnique(p, models, prompt, k);
    ResultIsExpected(p, models, prompt, last);
    AskedModels(p, models, prompt, last);
  }

  /** An answer with neither inline data nor a URL ends the loop at once with
      an error naming that model, even when later models would succeed. */
  lemma UnrecognizedStopsLoop(p: Provider, models: seq<string>, prompt: string, last: Option<string>, k: int)
    requires 0 <= k < |models|
    requires FailedBefore(p, models, prompt, k)
    requires TryModel(p, models[k], prompt).value.Unrecognized?
    ensures var r := TryModels(p, models, prompt, last);
            && r.value == ImageErr(MissingShapeError(models[k]))
            && GeneratedModels(r.calls) == models[..k + 1]
  {
    DecisiveIsUnique(p, models, prompt, k);
    ResultIsExpected(p, models, prompt, last);
    AskedModels(p, models, prompt, last);
  }

  /** When every model raises, each one is asked and the error carries the
      last model's error. */
  lemma AllRaisedCarriesLastError(p: Provider, models: seq<string>, prompt: string, last: Option<string>)
    requires |models| > 0
    requires FailedBefore(p, models, prompt, |models|)
    ensures var r := TryModels(p, models, prompt, last);
            && r.value == ImageErr(AllFailedError(Some(TryModel(p, models[|models| - 1], prompt).value.err)))
            && GeneratedModels(r.calls) == models
  {
    ResultIsExpected(p, models, prompt, last);
    AskedModels(p, models, prompt, last);
  }

  /** With the configured list: "dall-e-3" and "gpt-image-1" raise and
      "gpt-image-1-mini" produces an image; the result names the third model
      and all three were asked, in order. */
  lemma ThirdModelAfterTwoFailures(p: Provider, prompt: string)
    requires TryModel(p, "dall-e-3", prompt).value.Failed?
    requires TryModel(p, "gpt-image-1", prompt).value.Failed?
    requires TryModel(p, "gpt-image-1-mini", prompt).value.Produced?
    ensures var r := TryGenerateImage(p, prompt);
            && r.value == ImageOk(TryModel(p, "gpt-image-1-mini", prompt).value.imageB64, "gpt-image-1-mini")
            && GeneratedModels(r.calls) == ["dall-e-3", "gpt-image-1", "gpt-image-1-mini"]
  {
    FirstProducerWins(p, ImageModels, prompt, None, 2);
    assert ImageModels[..3] == ImageModels;
  }

  /** With the configured list: when every model's generation call raises,
      all three are asked and the error carries the message of the last one,
      "gpt-image-1-mini". */
  lemma AllModelsRaise(p: Provider, prompt: string)
    requires p.generate("dall-e-3", prompt).Raised?
    requires p.generate("gpt-image-1", prompt).Raised?
    requires p.generate("gpt-image-1-mini", prompt).Raised?
    ensures var r := TryGenerateImage(p, prompt);
            && r.value == ImageErr(AllFailedError(Some(p.generate("gpt-image-1-mini", prompt).err)))
            && GeneratedModels(r.calls) == ImageModels
  {
    assert FailedBefore(p, ImageModels, prompt, 3);
    AllRaisedCarriesLastError(p, ImageModels, prompt, None);
  }

  /** With the configured list: an unrecognized answer from "dall-e-3" ends
      the attempt and no other model is asked. */
  lemma FirstModelUnrecognized(p: Provider, prompt: string)
    requires TryModel(p, "dall-e-3", prompt).value.Unrecognized?
    ensures var r := TryGenerateImage(p, prompt);
            && r.value == ImageErr(MissingShapeError("dall-e-3"))
            && GeneratedModels(r.calls) == ["dall-e-3"]
  {
    UnrecognizedStopsLoop(p, ImageModels, prompt, None, 0);
  }
}
