/** `POST /api/generate-images-vertex`: one cached Vertex AI image per prompt. A prompt
    whose generation rejects becomes `null`; when none succeeded the request fails, and
    otherwise the nulls are replaced by a fixed grey placeholder picture. The cached
    generator is an injected function from the prompt and style to its outcome. */
module GenerateImagesVertexRoute {
  import opened Wrappers
  import opened Strings
  import FallbackImages
  import Base64
  import Utf8

  /** The destructured request body. `prompts` is the array of prompt strings, or, when
      the field is missing or not an array, the message of the error that calling `map`
      on it throws. */
  datatype VertexBody = VertexBody(prompts: Result<seq<string>, string>, style: Option<string>)

  /** The configuration the route checks before generating. */
  datatype Config = Config(projectId: Option<string>, applicationCredentials: Option<string>)

  datatype VertexImagesResponse =
    | VertexImages(images: seq<string>)
    | VertexImagesFailure(status: nat, error: string)

  const DEFAULT_STYLE: string := "digital art"
  const NO_PROJECT_ID: string := "Google Cloud Project ID not configured"
  const NO_CREDENTIALS: string := "Google Application Credentials not configured"
  const ERROR_PREFIX: string := "Failed to generate images: "
  const ALL_FAILED: string := "All image generations failed"

  /** The placeholder drawn for a failed slot. */
  const PLACEHOLDER_SVG: string :=
    "<svg width=\"512\" height=\"512\" xmlns=\"http://www.w3.org/2000/svg\"><rect width=\"512\" height=\"512\" fill=\"#f0f0f0\"/><text x=\"256\" y=\"256\" text-anchor=\"middle\" font-family=\"Arial\" font-size=\"24\" fill=\"#999\">Image generation failed</text></svg>"

  function Placeholder(): (r: string)
    ensures StartsWith(r, FallbackImages.SVG_DATA_URI_PREFIX)
  {
    FallbackImages.SvgDataUri(PLACEHOLDER_SVG)
  }

  function StyleOf(body: VertexBody): (s: string)
    ensures body.style.Some? ==> s == body.style.value
    ensures body.style.None? ==> s == DEFAULT_STYLE
  {
    body.style.GetOr(DEFAULT_STYLE)
  }

  /** Each prompt's settled outcome: the image, or `null` when its generation rejected. */
  function Settled(prompts: seq<string>, style: string, generate: (string, string) -> Result<string, string>): (r: seq<Option<string>>)
    ensures |r| == |prompts|
    ensures forall i :: 0 <= i < |r| ==> (r[i].Some? <==> generate(prompts[i], style).Ok?)
    ensures forall i :: 0 <= i < |r| && r[i].Some? ==> r[i].value == generate(prompts[i], style).value
  {
    seq(|prompts|, i requires 0 <= i < |prompts| =>
      match generate(prompts[i], style)
      case Ok(img) => Some(img)
      case Err(_) => None)
  }

  /** `images.filter(img => img !== null)`, counted. */
  function SuccessCount(images: seq<Option<string>>): (n: nat)
    ensures n <= |images|
    ensures n == 0 <==> forall i :: 0 <= i < |images| ==> images[i].None?
  {
    if images == [] then 0
    else (if images[0].Some? then 1 else 0) + SuccessCount(images[1..])
  }

  /** `images.map(img => img || placeholder)`; the route passes `Placeholder()`. */
  function FillPlaceholders(images: seq<Option<string>>, placeholder: string): (r: seq<string>)
    ensures |r| == |images|
    ensures forall i :: 0 <= i < |images| && IsSet(images[i]) ==> r[i] == images[i].value
    ensures forall i :: 0 <= i < |images| && !IsSet(images[i]) ==> r[i] == placeholder
  {
    seq(|images|, i requires 0 <= i < |images| => if IsSet(images[i]) then images[i].value else placeholder)
  }

  /** The route handler. `body` is the destructured request, or the message of the error
      that reading and destructuring it threw (a body that is not JSON, or is `null`). That
      error comes before the configuration checks; a `prompts` that is not an array fails
      only after them, when it is mapped. */
  function HandleVertexImages(body: Result<VertexBody, string>, config: Config,
                              generate: (string, string) -> Result<string, string>): (resp: VertexImagesResponse)
    ensures body.Err? ==> resp == VertexImagesFailure(500, ERROR_PREFIX + body.error)
    ensures body.Ok? && !IsSet(config.projectId) ==> resp == VertexImagesFailure(500, NO_PROJECT_ID)
    ensures body.Ok? && IsSet(config.projectId) && !IsSet(config.applicationCredentials) ==>
      resp == VertexImagesFailure(500, NO_CREDENTIALS)
    ensures body.Ok? && IsSet(config.projectId) && IsSet(config.applicationCredentials) && body.value.prompts.Err? ==>
      resp == VertexImagesFailure(500, ERROR_PREFIX + body.value.prompts.error)
    ensures resp.VertexImagesFailure? ==> resp.status == 500
    ensures resp.VertexImages? ==>
      body.Ok? && body.value.prompts.Ok? && |resp.images| == |body.value.prompts.value|
  {
    match body
    case Err(m) => VertexImagesFailure(500, ERROR_PREFIX + m)
    case Ok(b) =>
      if !IsSet(config.projectId) then VertexImagesFailure(500, NO_PROJECT_ID)
      else if !IsSet(config.applicationCredentials) then VertexImagesFailure(500, NO_CREDENTIALS)
      else if b.prompts.Err? then VertexImagesFailure(500, ERROR_PREFIX + b.prompts.error)
      else
        var images := Settled(b.prompts.value, StyleOf(b), generate);
        if SuccessCount(images) == 0 then VertexImagesFailure(500, ERROR_PREFIX + ALL_FAILED)
        else VertexImages(FillPlaceholders(images, Placeholder()))
  }

  /** Failing configuration is reported before anything is generated: the outcome does not
      depend on the generator. */
  lemma ConfigBeforeGeneration(body: Result<VertexBody, string>, config: Config,
                               g1: (string, string) -> Result<string, string>, g2: (string, string) -> Result<string, string>)
    requires !IsSet(config.projectId) || !IsSet(config.applicationCredentials)
    ensures HandleVertexImages(body, config, g1) == HandleVertexImages(body, config, g2)
    ensures HandleVertexImages(body, config, g1).VertexImagesFailure?
  {
  }

  /** When every generation rejects, and in particular when there are no prompts, the
      request fails with the all-failed message. */
  lemma AllFailedIsAnError(b: VertexBody, config: Config, generate: (string, string) -> Result<string, string>)
    requires IsSet(config.projectId) && IsSet(config.applicationCredentials) && b.prompts.Ok?
    requires forall i :: 0 <= i < |b.prompts.value| ==> generate(b.prompts.value[i], StyleOf(b)).Err?
    ensures HandleVertexImages(Ok(b), config, generate) == VertexImagesFailure(500, ERROR_PREFIX + ALL_FAILED)
  {
    NoneSettled(b.prompts.value, StyleOf(b), generate);
  }

  lemma NoneSettled(prompts: seq<string>, style: string, generate: (string, string) -> Result<string, string>)
    requires forall i :: 0 <= i < |prompts| ==> generate(prompts[i], style).Err?
    ensures SuccessCount(Settled(prompts, style, generate)) == 0
  {
    var images := Settled(prompts, style, generate);
    assert forall i :: 0 <= i < |images| ==> images[i].None?;
  }

  /** Slot by slot, `images` holds each prompt's own image when its generation gave a
      non-empty one and `placeholder` when it rejected, and no slot is empty. */
  predicate FilledFrom(images: seq<string>, prompts: seq<string>, style: string,
                       generate: (string, string) -> Result<string, string>, placeholder: string) {
    && |images| == |prompts|
    && (forall i :: 0 <= i < |prompts| && generate(prompts[i], style).Ok? && generate(prompts[i], style).value != "" ==>
          images[i] == generate(prompts[i], style).value)
    && (forall i :: 0 <= i < |prompts| && generate(prompts[i], style).Err? ==> images[i] == placeholder)
    && (forall i :: 0 <= i < |images| ==> images[i] != "")
  }

  /** When some generation succeeds, every slot holds its own image or the placeholder,
      and no slot is empty. */
  lemma SomeSucceededFills(b: VertexBody, config: Config, generate: (string, string) -> Result<string, string>, j: nat)
    requires IsSet(config.projectId) && IsSet(config.applicationCredentials) && b.prompts.Ok?
    requires j < |b.prompts.value| && generate(b.prompts.value[j], StyleOf(b)).Ok?
    ensures var resp := HandleVertexImages(Ok(b), config, generate);
      resp.VertexImages? && FilledFrom(resp.images, b.prompts.value, StyleOf(b), generate, Placeholder())
  {
    var images := Settled(b.prompts.value, StyleOf(b), generate);
    assert images[j].Some?;
    assert HandleVertexImages(Ok(b), config, generate) == VertexImages(FillPlaceholders(images, Placeholder()));
    PlaceholderNonEmpty();
    FilledSlots(b.prompts.value, StyleOf(b), generate, Placeholder());
  }

  /** The filled list, slot by slot, for any non-empty placeholder. */
  lemma FilledSlots(prompts: seq<string>, style: string, generate: (string, string) -> Result<string, string>, ph: string)
    requires ph != ""
    ensures FilledFrom(FillPlaceholders(Settled(prompts, style, generate), ph), prompts, style, generate, ph)
  {
  }

  lemma PlaceholderNonEmpty()
    ensures Placeholder() != ""
  {
    assert StartsWith(Placeholder(), FallbackImages.SVG_DATA_URI_PREFIX);
  }

  /** The placeholder is a data URI whose payload decodes to the placeholder SVG. */
  lemma PlaceholderDecodes()
    ensures var payload := Base64.Decode(FallbackImages.Payload(Placeholder()));
      payload.Some? && Utf8.Decode(payload.value) == Some(PLACEHOLDER_SVG)
  {
    FallbackImages.SvgDataUriDecodes(PLACEHOLDER_SVG);
  }
}
