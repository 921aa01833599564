/** The `/api/generate` endpoint: planning a provider call from the request
    body, mapping the provider's outcome onto the HTTP response, and the two
    composed. The provider itself is an opaque function from a call to an outcome. */
module Generate {
  import opened Json
  import Styles

  const Model: string := "dall-e-3"
  const Size: string := "1024x1024"
  const ImageCount: nat := 1
  const DefaultQuality: string := "standard"
  const MissingPrompt: string := "No prompt provided"
  /** CPython's text for the IndexError raised by `response.data[0]` on an empty list. */
  const EmptyImageList: string := "list index out of range"

  /** The arguments of one provider call. */
  datatype ProviderCall = ProviderCall(
    model: string, prompt: string, size: string, quality: Value, n: nat, style: string)

  /** One generated image as the provider reports it. */
  datatype Image = Image(url: string, revisedPrompt: Value)

  /** What the provider call produced: a list of images, or an exception with its text. */
  datatype Outcome = Generated(images: seq<Image>) | Raised(message: string)

  /** The JSON object of a response body. */
  datatype Payload =
    | ImageResult(url: string, revisedPrompt: Value)
    | Error(message: string)
    | Status(status: string)

  datatype Response = Response(status: int, payload: Payload)

  /** The result of planning: answer at once without calling the provider, or call it. */
  datatype Plan = Reject(response: Response) | Invoke(call: ProviderCall)

  /** The provider calls one request made, and the response it got. */
  datatype Exchange = Exchange(calls: seq<ProviderCall>, response: Response)

  /** A body whose "prompt" field is present and a non-empty string: exactly the
      bodies on which `data.get("prompt")` is truthy. */
  function HasPrompt(body: Body): (b: bool)
    ensures b <==> body.Object? && Truthy(Get(body.fields, "prompt", Null))
  {
    body.Object? && "prompt" in body.fields && body.fields["prompt"].Str? && |body.fields["prompt"].s| > 0
  }

  /** The status and the payload agree: 200 carries a result, 400 and 500 an error. */
  predicate WellFormed(r: Response) {
    && (r.status == 200 <==> !r.payload.Error?)
    && (r.status != 200 ==> r.status == 400 || r.status == 500)
  }

  /** The style the request asks for: the "style" field as sent, null included,
      and "natural" only when the key is absent. */
  function RequestedStyle(fields: map<string, Value>): (style: Value)
    ensures "style" in fields ==> style == fields["style"]
    ensures "style" !in fields ==> style == Str("natural")
  {
    Get(fields, "style", Str(Styles.DefaultStyle))
  }

  /** Everything the handler decides before it contacts the provider. */
  function PlanRequest(body: Body): (p: Plan)
    ensures p.Invoke? <==> HasPrompt(body)
    ensures body.Unparsable? ==> p == Reject(Response(500, Error(body.reason)))
    ensures body.Object? && !HasPrompt(body) ==> p == Reject(Response(400, Error(MissingPrompt)))
    ensures p.Invoke? ==>
      && p.call.model == "dall-e-3" && p.call.size == "1024x1024" && p.call.n == 1
      && p.call.quality == (if "quality" in body.fields then body.fields["quality"] else Str("standard"))
      && (p.call.style == "natural" || p.call.style == "vivid")
      && p.call.style == Styles.ProviderStyle(RequestedStyle(body.fields))
      && p.call.prompt == Styles.Enhance(RequestedStyle(body.fields), body.fields["prompt"].s)
  {
    match body
    case Unparsable(reason) => Reject(Response(500, Error(reason)))
    case Object(fields) =>
      var prompt := Get(fields, "prompt", Null);
      var quality := Get(fields, "quality", Str(DefaultQuality));
      var style := Get(fields, "style", Str(Styles.DefaultStyle));
      if !Truthy(prompt) then Reject(Response(400, Error(MissingPrompt)))
      else
        Invoke(ProviderCall(
          Model, Styles.Enhance(style, prompt.s), Size, quality, ImageCount, Styles.ProviderStyle(style)))
  }

  /** The response for a provider outcome: the first image on success, and a 500
      carrying the exception text on any failure, an empty image list included. */
  function Respond(outcome: Outcome): (r: Response)
    ensures WellFormed(r)
    ensures r.status == 200 <==> outcome.Generated? && |outcome.images| > 0
    ensures r.status == 200 ==>
      r.payload == ImageResult(outcome.images[0].url, outcome.images[0].revisedPrompt)
    ensures r.status != 200 ==> r.status == 500
    ensures outcome.Raised? ==> r.payload == Error(outcome.message)
    ensures outcome == Generated([]) ==> r.payload == Error("list index out of range")
  {
    match outcome
    case Raised(message) => Response(500, Error(message))
    case Generated(images) =>
      if |images| == 0 then Response(500, Error(EmptyImageList))
      else Response(200, ImageResult(images[0].url, images[0].revisedPrompt))
  }

  /** One request end to end, with `provider` standing for the remote service. */
  function Handle(body: Body, provider: ProviderCall -> Outcome): (x: Exchange)
    ensures WellFormed(x.response)
    ensures |x.calls| == 1 <==> HasPrompt(body)
    ensures !HasPrompt(body) ==> x.calls == [] && x.response.status != 200
    ensures body.Object? && !HasPrompt(body) ==> x.response == Response(400, Error("No prompt provided"))
    ensures HasPrompt(body) ==> x.response.status == 200 || x.response.status == 500
  {
    match PlanRequest(body)
    case Reject(response) => Exchange([], response)
    case Invoke(call) => Exchange([call], Respond(provider(call)))
  }

  /** A rejected request never reaches the provider: its answer is the same
      whatever the provider would have done. */
  lemma RejectionIgnoresProvider(body: Body, p1: ProviderCall -> Outcome, p2: ProviderCall -> Outcome)
    requires !HasPrompt(body)
    ensures Handle(body, p1) == Handle(body, p2)
    ensures Handle(body, p1).calls == []
  {
  }

  /** An accepted request makes exactly one call, with the fixed model, size and
      count, the quality as sent (or "standard"), a provider style of the two
      known ones, and a prompt that is the effective style's prefix, a space and
      the user's prompt; the response is the mapping of that call's outcome. */
  lemma AcceptedCallsOnce(body: Body, provider: ProviderCall -> Outcome)
    requires HasPrompt(body)
    ensures var x := Handle(body, provider);
      && |x.calls| == 1
      && x.calls[0].model == "dall-e-3" && x.calls[0].size == "1024x1024" && x.calls[0].n == 1
      && x.calls[0].quality == Get(body.fields, "quality", Str("standard"))
      && x.calls[0].style == Styles.ProviderStyle(RequestedStyle(body.fields))
      && x.calls[0].prompt == Styles.PrefixFor(RequestedStyle(body.fields)) + " " + body.fields["prompt"].s
      && x.response == Respond(provider(x.calls[0]))
  {
  }

  /** The prompt of a planned call can be read back into the effective style and
      the user's prompt: the provider receives both, unaltered. */
  lemma PlannedPromptSplits(body: Body)
    requires HasPrompt(body)
    ensures Styles.Split(PlanRequest(body).call.prompt) ==
      Styles.Some((Styles.EffectiveStyle(RequestedStyle(body.fields)), body.fields["prompt"].s))
  {
    Styles.SplitEnhance(RequestedStyle(body.fields), body.fields["prompt"].s);
  }

  /** An anime request gets the anime prefix but reaches the provider as "natural". */
  lemma AnimeExample()
    ensures var p := PlanRequest(Object(map["prompt" := Str("a cat"), "style" := Str("anime")]));
      p.Invoke? && p.call.prompt == "Create an anime-style illustration of" + " " + "a cat"
      && p.call.style == "natural" && p.call.quality == Str("standard")
  {
    var fields := map["prompt" := Str("a cat"), "style" := Str("anime")];
    assert Get(fields, "style", Str("natural")) == Str("anime");
    assert Get(fields, "quality", Str("standard")) == Str("standard");
    assert Get(fields, "prompt", Null) == Str("a cat");
    AnimeSelectsAnime();
    var p := PlanRequest(Object(fields));
    assert p == Invoke(ProviderCall(Model, Styles.Enhance(Str("anime"), "a cat"), Size, Str("standard"), 1, "natural"));
  }

  lemma AnimeSelectsAnime()
    ensures Styles.Enhance(Str("anime"), "a cat") == Styles.Table[2].prefix + " " + "a cat"
    ensures Styles.ProviderStyle(Str("anime")) == "natural"
  {
    assert Styles.PrefixFor(Str("anime")) == Styles.Table[2].prefix by {
      assert Styles.Table[2].key == "anime";
    }
    assert Styles.ProviderStyle(Str("anime")) == "natural" by {
      assert "anime" !in Styles.ProviderStyles;
    }
  }

  /** A style the table does not know selects the natural prefix. */
  lemma UnknownStyleExample()
    ensures var p := PlanRequest(Object(map["prompt" := Str("a cat"), "style" := Str("sketch")]));
      p.Invoke? && p.call.prompt == "Create a natural, photorealistic image of" + " " + "a cat" && p.call.style == "natural"
  {
    var fields := map["prompt" := Str("a cat"), "style" := Str("sketch")];
    assert Get(fields, "style", Str("natural")) == Str("sketch");
    assert Get(fields, "quality", Str("standard")) == Str("standard");
    assert Get(fields, "prompt", Null) == Str("a cat");
    SketchSelectsNatural();
    var p := PlanRequest(Object(fields));
    assert p == Invoke(ProviderCall(Model, Styles.Enhance(Str("sketch"), "a cat"), Size, Str("standard"), 1, "natural"));
  }

  lemma SketchSelectsNatural()
    ensures Styles.Enhance(Str("sketch"), "a cat") == Styles.Table[0].prefix + " " + "a cat"
    ensures Styles.ProviderStyle(Str("sketch")) == "natural"
  {
    assert !Styles.IsKey("sketch") by {
      forall i | 0 <= i < |Styles.Table| ensures Styles.Table[i].key != "sketch" {
        assert Styles.Table[i].key[0] != 's';
      }
    }
    assert Styles.ProviderStyle(Str("sketch")) == "natural" by {
      assert "sketch" !in Styles.ProviderStyles;
    }
  }

  /** A provider failure's message becomes the error text of a 500. */
  lemma RateLimitExample()
    ensures Handle(Object(map["prompt" := Str("a cat")]), _ => Raised("rate limit")).response
      == Response(500, Error("rate limit"))
  {
  }
}
