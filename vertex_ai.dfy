/** The Vertex AI image generator (`VertexAIService.generateImage`): configuration
    guards, the request it sends, the classification of HTTP errors, and the
    normalisation of the returned image into a data URI. The token exchange and the
    HTTP call are one injected function from the request to the vendor's reply. */
module VertexAI {
  import opened Wrappers
  import opened Strings

  const DEFAULT_LOCATION: string := "us-central1"
  const PNG_DATA_URI_PREFIX: string := "data:image/png;base64,"
  const IMAGE_DATA_URI_MARK: string := "data:image"
  const NO_IMAGE_GENERATED: string := "No image generated"

  /** What the service constructor made of `GOOGLE_CREDENTIALS_BASE64`. */
  datatype Credentials = NotProvided | Malformed | Parsed

  /** The environment the generator reads. */
  datatype Env = Env(projectId: Option<string>, location: Option<string>, credentials: Credentials)

  /** The body and endpoint of the `:predict` request. */
  datatype Request = Request(
    endpoint: string,
    prompt: string,
    negativePrompt: string,
    sampleCount: nat,
    aspectRatio: string,
    safetyFilterLevel: string,
    personGeneration: string,
    seed: Option<int>)

  /** One element of the response's `predictions`; each field is absent or a string. */
  datatype Prediction = Prediction(
    bytesBase64Encoded: Option<string>,
    base64Encoded: Option<string>,
    imageBytes: Option<string>,
    image: Option<string>)

  /** What the token exchange and the HTTP call come back with. */
  datatype VendorReply =
    | Threw(message: string)                          // the auth library, `fetch` or `response.json()` threw
    | NoAccessToken                                   // the token exchange returned no token
    | NotOk(status: int, errorMessage: Option<string>) // non-2xx; `error.message` of the body when it is JSON and has one
    | Success(predictions: seq<Prediction>)           // 2xx; an absent `predictions` is the empty sequence

  /** The kinds of HTTP failure the generator tells apart. */
  datatype ApiError =
    | RateLimited
    | InvalidRequest(detail: string)
    | AuthenticationFailed(detail: string)
    | OtherApiError(detail: string)

  /** The service constructor: a credential blob that does not decode makes it throw. */
  function NewService(c: Credentials): (r: Result<bool, string>)
    ensures r.Err? <==> c == Malformed
    ensures r.Ok? ==> (r.value <==> c == Parsed)
  {
    match c
    case Malformed => Err("Invalid Google credentials")
    case NotProvided => Ok(false)
    case Parsed => Ok(true)
  }

  /** The seed sent with the request: only a truthy seed (present and non-zero). */
  function RequestSeed(seed: Option<int>): (r: Option<int>)
    ensures r.Some? <==> seed.Some? && seed.value != 0
    ensures r.Some? ==> r == seed
  {
    if seed.Some? && seed.value != 0 then seed else None
  }

  function Endpoint(projectId: string, location: string): string {
    "https://" + location + "-aiplatform.googleapis.com/v1/projects/" + projectId + "/locations/" + location
      + "/publishers/google/models/imagen-3.0-fast-generate-001:predict"
  }

  function BuildRequest(projectId: string, location: Option<string>, prompt: string, style: string, seed: Option<int>): (r: Request)
    ensures StartsWith(r.prompt, prompt + ", " + style + " style")
    ensures r.sampleCount == 1
    ensures r.seed == RequestSeed(seed)
  {
    var loc := if IsSet(location) then location.value else DEFAULT_LOCATION;
    Request(
      Endpoint(projectId, loc),
      prompt + ", " + style + " style" + ", storybook illustration, whimsical, playful, family-friendly and age-appropriate, fantasy adventure theme",
      "child, kid, baby, toddler, minor",
      1, "1:1", "block_none", "allow_all",
      RequestSeed(seed))
  }

  /** The message of a non-2xx response's error body, or a message naming the status. */
  function ErrorDetail(status: int, errorMessage: Option<string>): string {
    if IsSet(errorMessage) then errorMessage.value else "Vertex AI API error: " + IntToString(status)
  }

  /** Classification of a non-2xx status. */
  function Classify(status: int, errorMessage: Option<string>): (e: ApiError)
    ensures e.RateLimited? <==> status == 429
    ensures e.InvalidRequest? <==> status == 400
    ensures e.AuthenticationFailed? <==> status == 401 || status == 403
    ensures !e.RateLimited? ==> e.detail == ErrorDetail(status, errorMessage)
  {
    if status == 429 then RateLimited
    else if status == 400 then InvalidRequest(ErrorDetail(status, errorMessage))
    else if status == 401 || status == 403 then AuthenticationFailed(ErrorDetail(status, errorMessage))
    else OtherApiError(ErrorDetail(status, errorMessage))
  }

  /** The message of the error the generator throws for a classified failure. */
  function ApiErrorMessage(e: ApiError): string {
    match e
    case RateLimited => "Rate limit exceeded - too many requests"
    case InvalidRequest(d) => "Invalid request - prompt may contain filtered content: " + d
    case AuthenticationFailed(d) => "Authentication error: " + d
    case OtherApiError(d) => d
  }

  /** The first truthy image field of a prediction, in the order the source tries them. */
  function ImageData(p: Prediction): (r: Option<string>)
    ensures r.Some? ==> r.value != ""
    ensures r.None? <==> !IsSet(p.bytesBase64Encoded) && !IsSet(p.base64Encoded) && !IsSet(p.imageBytes) && !IsSet(p.image)
    ensures IsSet(p.bytesBase64Encoded) ==> r == p.bytesBase64Encoded
    ensures !IsSet(p.bytesBase64Encoded) && IsSet(p.base64Encoded) ==> r == p.base64Encoded
    ensures !IsSet(p.bytesBase64Encoded) && !IsSet(p.base64Encoded) && IsSet(p.imageBytes) ==> r == p.imageBytes
    ensures !IsSet(p.bytesBase64Encoded) && !IsSet(p.base64Encoded) && !IsSet(p.imageBytes) && IsSet(p.image) ==> r == p.image
  {
    if IsSet(p.bytesBase64Encoded) then p.bytesBase64Encoded
    else if IsSet(p.base64Encoded) then p.base64Encoded
    else if IsSet(p.imageBytes) then p.imageBytes
    else if IsSet(p.image) then p.image
    else None
  }

  /** Image data as a data URI: kept when it already is one, otherwise read as base64 PNG. */
  function NormalizeImageData(data: string): (r: string)
    ensures StartsWith(r, IMAGE_DATA_URI_MARK)
    ensures StartsWith(data, IMAGE_DATA_URI_MARK) ==> r == data
    ensures !StartsWith(data, IMAGE_DATA_URI_MARK) ==> StartsWith(r, PNG_DATA_URI_PREFIX) && r[|PNG_DATA_URI_PREFIX|..] == data
  {
    if StartsWith(data, IMAGE_DATA_URI_MARK) then data else PNG_DATA_URI_PREFIX + data
  }

  lemma NormalizeIdempotent(data: string)
    ensures NormalizeImageData(NormalizeImageData(data)) == NormalizeImageData(data)
  {
  }

  /** `generateImage`: guards, one request, then the classified error or the normalised image. */
  function GenerateImage(env: Env, hasCredentials: bool, prompt: string, style: string, seed: Option<int>,
                         vendor: Request -> VendorReply): (r: Result<string, string>)
    ensures !IsSet(env.projectId) ==> r == Err("GOOGLE_CLOUD_PROJECT_ID is not set")
    ensures IsSet(env.projectId) && !hasCredentials ==> r == Err("Google credentials not available")
    ensures r.Ok? ==> StartsWith(r.value, IMAGE_DATA_URI_MARK)
  {
    if !IsSet(env.projectId) then Err("GOOGLE_CLOUD_PROJECT_ID is not set")
    else if !hasCredentials then Err("Google credentials not available")
    else
      match vendor(BuildRequest(env.projectId.value, env.location, prompt, style, seed))
      case Threw(m) => Err(m)
      case NoAccessToken => Err("Failed to obtain access token")
      case NotOk(status, msg) => Err(ApiErrorMessage(Classify(status, msg)))
      case Success(predictions) =>
        if |predictions| > 0 && ImageData(predictions[0]).Some? then
          Ok(NormalizeImageData(ImageData(predictions[0]).value))
        else Err(NO_IMAGE_GENERATED)
  }

  /** A missing project id or missing credentials fail before any token or HTTP request:
      the outcome does not depend on the vendor at all. */
  lemma GuardsPrecedeRequest(env: Env, hasCredentials: bool, prompt: string, style: string, seed: Option<int>,
                             v1: Request -> VendorReply, v2: Request -> VendorReply)
    requires !IsSet(env.projectId) || !hasCredentials
    ensures GenerateImage(env, hasCredentials, prompt, style, seed, v1) == GenerateImage(env, hasCredentials, prompt, style, seed, v2)
    ensures GenerateImage(env, hasCredentials, prompt, style, seed, v1).Err?
  {
  }

  /** A successful generation always yields an image data URI, and a reply without usable
      image data is the error `No image generated`. */
  lemma GenerateImageOutcome(env: Env, hasCredentials: bool, prompt: string, style: string, seed: Option<int>,
                             vendor: Request -> VendorReply)
    ensures var r := GenerateImage(env, hasCredentials, prompt, style, seed, vendor);
      r.Ok? ==> StartsWith(r.value, IMAGE_DATA_URI_MARK)
    ensures IsSet(env.projectId) && hasCredentials ==>
      var reply := vendor(BuildRequest(env.projectId.value, env.location, prompt, style, seed));
      reply.Success? && (|reply.predictions| == 0 || ImageData(reply.predictions[0]).None?) ==>
        GenerateImage(env, hasCredentials, prompt, style, seed, vendor) == Err(NO_IMAGE_GENERATED)
  {
    if IsSet(env.projectId) && hasCredentials {
      var reply := vendor(BuildRequest(env.projectId.value, env.location, prompt, style, seed));
      if reply.Success? && |reply.predictions| > 0 && ImageData(reply.predictions[0]).Some? {
        var d := ImageData(reply.predictions[0]).value;
        assert GenerateImage(env, hasCredentials, prompt, style, seed, vendor) == Ok(NormalizeImageData(d));
      }
    }
  }

  /** The rate-limit message is fixed; the others carry the body's message or the status. */
  lemma ClassifiedMessages(status: int, errorMessage: Option<string>)
    ensures status == 429 ==> ApiErrorMessage(Classify(status, errorMessage)) == "Rate limit exceeded - too many requests"
    ensures status == 400 ==> StartsWith(ApiErrorMessage(Classify(status, errorMessage)), "Invalid request - prompt may contain filtered content: ")
    ensures status == 401 || status == 403 ==> StartsWith(ApiErrorMessage(Classify(status, errorMessage)), "Authentication error: ")
    ensures status !in {429, 400, 401, 403} && IsSet(errorMessage) ==> ApiErrorMessage(Classify(status, errorMessage)) == errorMessage.value
    ensures status !in {429, 400, 401, 403} && !IsSet(errorMessage) ==>
      ApiErrorMessage(Classify(status, errorMessage)) == "Vertex AI API error: " + IntToString(status)
  {
    var m := ApiErrorMessage(Classify(status, errorMessage));
    if status == 400 {
      assert m == "Invalid request - prompt may contain filtered content: " + ErrorDetail(status, errorMessage);
    } else if status == 401 || status == 403 {
      assert m == "Authentication error: " + ErrorDetail(status, errorMessage);
    }
  }
}
