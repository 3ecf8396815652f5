/** ImageAgent (app/core/agents/image_agent.py, the live code from line 112 on): renders an
    image prompt, asks the image model for two images, and returns each as a data URL; also
    refines an image by sending a second, parameterised prompt. The image model service is a
    class that keeps the requests it was sent and answers the n-th of them as its `answer`
    function says. */
module ImageAgent {
  import opened Results
  import opened JsonValues
  import opened Prompts
  import Text

  // ---------------------------------------------------------------------------------------
  // The image model service

  /** The request body `_generate_single_image` sends (before `json.dumps`). */
  datatype ImageRequest = ImageRequest(
    modelId: string,
    taskType: string,
    text: string,
    numberOfImages: nat,
    width: nat,
    height: nat,
    quality: string,
    seed: nat,
    cfgScale: real,
    steps: nat)

  /** The request for one 1024x1024 standard-quality image of `prompt`. */
  function RequestFor(prompt: string): ImageRequest {
    ImageRequest("amazon.titan-image-generator-v1", "TEXT_IMAGE", prompt, 1, 1024, 1024, "standard", 42, 8.0, 50)
  }

  /** The image model client. `answer(request, n)` is the decoded JSON body of the service's
      reply to `request` when it is the n-th request of the client (or the error raised). */
  class ImageModel {
    var requests: seq<ImageRequest>
    const answer: (ImageRequest, nat) -> Result<Json>

    constructor (answer: (ImageRequest, nat) -> Result<Json>)
      ensures requests == [] && this.answer == answer
    {
      requests := [];
      this.answer := answer;
    }

    /** `invoke_model`, with the reply's body read, decoded and parsed. */
    method InvokeModel(request: ImageRequest) returns (r: Result<Json>)
      modifies this
      ensures requests == old(requests) + [request]
      ensures r == answer(request, |old(requests)|)
    {
      r := answer(request, |requests|);
      requests := requests + [request];
    }
  }

  // ---------------------------------------------------------------------------------------
  // Data URLs

  const DataUrlPrefix := "data:image/png;base64,"

  /** `f"data:image/png;base64,{image_data}"`: a data URL (section 3 of RFC 2397) with media
      type `image/png`, the `;base64` marker and the given payload. */
  function DataUrl(payload: string): string {
    DataUrlPrefix + payload
  }

  /** The payload of a PNG base64 data URL, if the text is one. */
  function PayloadOf(url: string): Option<string> {
    if |url| >= |DataUrlPrefix| && url[..|DataUrlPrefix|] == DataUrlPrefix then Some(url[|DataUrlPrefix|..])
    else None
  }

  /** `PayloadOf` inverts `DataUrl`: a text is the data URL of a payload exactly when the
      payload is what `PayloadOf` reads from it. */
  lemma {:induction false} DataUrlRoundTrip(url: string, payload: string)
    ensures PayloadOf(url) == Some(payload) <==> url == DataUrl(payload)
  {
    var made := DataUrl(payload);
    assert made[..|DataUrlPrefix|] == DataUrlPrefix && made[|DataUrlPrefix|..] == payload;
    if PayloadOf(url) == Some(payload) {
      assert url == url[..|DataUrlPrefix|] + url[|DataUrlPrefix|..];
    }
  }

  // ---------------------------------------------------------------------------------------
  // One image

  const SingleImageError := "Error generating single image: "

  /** `response_body["images"][0]`: the first image of a reply that has a non-empty image
      list, and otherwise the KeyError, IndexError or TypeError Python raises. */
  function ImageData(body: Json): (r: Result<Json>)
    ensures body.JMap? && "images" in body.fields && body.fields["images"].JList? ==>
      var images := body.fields["images"].items;
      && (images != [] ==> r == Ok(images[0]))
      && (images == [] ==> r == Err("list index out of range"))
    ensures body.JMap? && "images" !in body.fields ==> r == Err("'images'")
    ensures !body.JMap? && !body.JList? && !body.JStr? ==> r == Err("'" + TypeName(body) + "' object is not subscriptable")
  {
    var images :- Subscript(body, "images");
    FirstItem(images)
  }

  /** What `_generate_single_image` returns when its request is the n-th the model receives:
      it succeeds exactly when the service answers with a first image, and then yields the
      data URL carrying that image as its payload; every failure, of the service or of reading
      the reply, is reported under the single-image prefix. */
  function SingleImage(answer: (ImageRequest, nat) -> Result<Json>, render: Json -> string, prompt: string, n: nat): (r: Result<string>)
    ensures var body := answer(RequestFor(prompt), n);
      && (r.Ok? <==> body.Ok? && ImageData(body.value).Ok?)
      && (r.Ok? ==> PayloadOf(r.value) == Some(Display(ImageData(body.value).value, render)))
      && (body.Err? ==> r == Err(SingleImageError + body.message))
      && (body.Ok? && ImageData(body.value).Err? ==> r == Err(SingleImageError + ImageData(body.value).message))
  {
    var body := answer(RequestFor(prompt), n);
    if body.Err? then Err(SingleImageError + body.message)
    else
      var image := ImageData(body.value);
      if image.Err? then Err(SingleImageError + image.message)
      else
        var payload := Display(image.value, render);
        DataUrlRoundTrip(DataUrl(payload), payload);
        Ok(DataUrl(payload))
  }

  /** `_generate_single_image`: one request to the image model. */
  method GenerateSingleImage(model: ImageModel, render: Json -> string, prompt: string) returns (r: Result<string>)
    modifies model
    ensures model.requests == old(model.requests) + [RequestFor(prompt)]
    ensures r == SingleImage(model.answer, render, prompt, |old(model.requests)|)
  {
    var body := model.InvokeModel(RequestFor(prompt));
    if body.Err? {
      return Err(SingleImageError + body.message);
    }
    var image := ImageData(body.value);
    if image.Err? {
      return Err(SingleImageError + image.message);
    }
    r := Ok(DataUrl(Display(image.value, render)));
  }

  // ---------------------------------------------------------------------------------------
  // The batch of two

  const ImagesError := "Error generating images: "

  /** `IMAGE_GENERATION_PROMPT` formatted with the JSON of the trend data, the design plan, the
      JSON of the brand metadata string, and the size 1024x1024; `dumps` is `json.dumps`. Each
      of the four shows in the prompt. */
  function GenerationPrompt(dumps: Json -> string, trendData: map<string, Json>, designPlan: string, brandMetadata: string): (p: string)
    ensures Text.Occurs(dumps(JMap(trendData)), p)
    ensures Text.Occurs(designPlan, p)
    ensures Text.Occurs(dumps(JStr(brandMetadata)), p)
    ensures Text.Occurs("1024x1024", p)
  {
    var values := map[
      "trend_data" := dumps(JMap(trendData)),
      "design_plan" := designPlan,
      "brand_metadata" := dumps(JStr(brandMetadata)),
      "format" := "1024x1024"];
    GenerationSlotsShow(values);
    Render(ImageGenerationPrompt, values)
  }

  function Repeat<T>(x: T, count: nat): (xs: seq<T>)
    ensures |xs| == count && forall k :: 0 <= k < count ==> xs[k] == x
  {
    if count == 0 then [] else Repeat(x, count - 1) + [x]
  }

  /** The loop of `generate_images`: two requests with the same prompt, in turn. The first
      failure ends the loop with its error, and no image is returned; otherwise exactly the two
      data URLs, in order. */
  method GenerateTwo(model: ImageModel, render: Json -> string, prompt: string) returns (r: Result<seq<string>>)
    modifies model
    ensures var n := |old(model.requests)|;
      var first := SingleImage(model.answer, render, prompt, n);
      var second := SingleImage(model.answer, render, prompt, n + 1);
      && (first.Err? ==> r == first.PropagateFailure() && model.requests == old(model.requests) + [RequestFor(prompt)])
      && (first.Ok? && second.Err? ==>
            r == second.PropagateFailure() && model.requests == old(model.requests) + Repeat(RequestFor(prompt), 2))
      && (first.Ok? && second.Ok? ==>
            r == Ok([first.value, second.value]) && model.requests == old(model.requests) + Repeat(RequestFor(prompt), 2))
  {
    ghost var n := |model.requests|;
    var imageUrls: seq<string> := [];
    for i := 0 to 2
      invariant model.requests == old(model.requests) + Repeat(RequestFor(prompt), i)
      invariant |imageUrls| == i
      invariant forall k :: 0 <= k < i ==> SingleImage(model.answer, render, prompt, n + k) == Ok(imageUrls[k])
    {
      assert |model.requests| == n + i;
      var response := GenerateSingleImage(model, render, prompt);
      assert Repeat(RequestFor(prompt), i + 1) == Repeat(RequestFor(prompt), i) + [RequestFor(prompt)];
      if response.Err? {
        if i == 1 {
          assert SingleImage(model.answer, render, prompt, n + 0) == Ok(imageUrls[0]);
        }
        return response.PropagateFailure();
      }
      imageUrls := imageUrls + [response.value];
    }
    assert SingleImage(model.answer, render, prompt, n + 0) == Ok(imageUrls[0]);
    assert imageUrls == [imageUrls[0], imageUrls[1]];
    r := Ok(imageUrls);
  }

  /** `generate_images`: the generation prompt, then the two requests; a failure is reported
      under the batch prefix. */
  method GenerateImages(model: ImageModel, render: Json -> string, dumps: Json -> string,
                        trendData: map<string, Json>, designPlan: string, brandMetadata: string)
    returns (r: Result<seq<string>>)
    modifies model
    ensures var prompt := GenerationPrompt(dumps, trendData, designPlan, brandMetadata);
      var n := |old(model.requests)|;
      var first := SingleImage(model.answer, render, prompt, n);
      var second := SingleImage(model.answer, render, prompt, n + 1);
      && (first.Err? ==>
            r == Err(ImagesError + first.message) && model.requests == old(model.requests) + [RequestFor(prompt)])
      && (first.Ok? && second.Err? ==>
            r == Err(ImagesError + second.message) && model.requests == old(model.requests) + Repeat(RequestFor(prompt), 2))
      && (first.Ok? && second.Ok? ==>
            r == Ok([first.value, second.value]) && model.requests == old(model.requests) + Repeat(RequestFor(prompt), 2))
  {
    var prompt := GenerationPrompt(dumps, trendData, designPlan, brandMetadata);
    var images := GenerateTwo(model, render, prompt);
    if images.Err? {
      return Err(ImagesError + images.message);
    }
    r := images;
  }

  // ---------------------------------------------------------------------------------------
  // Refinement

  const RefineError := "Error refining image: "

  /** The values `refine_image` formats its template with: `composition`, `colors` and
      `placement` of the parameters, each `""` when absent. */
  function RefinementValues(params: map<string, Json>, render: Json -> string): (v: map<string, string>)
    ensures v.Keys == {"composition_details", "color_requirements", "placement_guidelines"}
    ensures v["composition_details"] == Display(Get(params, "composition", JStr("")), render)
    ensures v["color_requirements"] == Display(Get(params, "colors", JStr("")), render)
    ensures v["placement_guidelines"] == Display(Get(params, "placement", JStr("")), render)
  {
    map[
      "composition_details" := Display(Get(params, "composition", JStr("")), render),
      "color_requirements" := Display(Get(params, "colors", JStr("")), render),
      "placement_guidelines" := Display(Get(params, "placement", JStr("")), render)]
  }

  /** A parameter that is absent becomes the empty string, and a string parameter is used as
      it is. */
  lemma RefinementDefaults(params: map<string, Json>, render: Json -> string)
    ensures var v := RefinementValues(params, render);
      && ("composition" !in params ==> v["composition_details"] == "")
      && ("colors" !in params ==> v["color_requirements"] == "")
      && ("placement" !in params ==> v["placement_guidelines"] == "")
      && ("composition" in params && params["composition"].JStr? ==> v["composition_details"] == params["composition"].s)
      && ("colors" in params && params["colors"].JStr? ==> v["color_requirements"] == params["colors"].s)
      && ("placement" in params && params["placement"].JStr? ==> v["placement_guidelines"] == params["placement"].s)
  {
  }

  /** `IMAGE_REFINEMENT_PROMPT` formatted with the three values: each shows in the prompt. */
  function RefinementPrompt(params: map<string, Json>, render: Json -> string): (p: string)
    ensures var v := RefinementValues(params, render);
      && Text.Occurs(v["composition_details"], p)
      && Text.Occurs(v["color_requirements"], p)
      && Text.Occurs(v["placement_guidelines"], p)
  {
    var values := RefinementValues(params, render);
    RefinementSlotsShow(values);
    Render(ImageRefinementPrompt, values)
  }

  /** `refine_image`: one request with the refinement prompt, or none when the parameters are
      not a dict. The image to refine is not used: the outcome does not depend on it. */
  method RefineImage(model: ImageModel, render: Json -> string, imageData: string, params: Json)
    returns (r: Result<string>)
    modifies model
    ensures !params.JMap? ==> r == Err(RefineError + NoAttribute(params, "get")) && model.requests == old(model.requests)
    ensures params.JMap? ==>
      var prompt := RefinementPrompt(params.fields, render);
      && model.requests == old(model.requests) + [RequestFor(prompt)]
      && r == Wrap(RefineError, SingleImage(model.answer, render, prompt, |old(model.requests)|))
  {
    if !params.JMap? {
      return Err(RefineError + NoAttribute(params, "get"));
    }
    var prompt := RefinementPrompt(params.fields, render);
    var refined := GenerateSingleImage(model, render, prompt);
    r := Wrap(RefineError, refined);
  }
}
