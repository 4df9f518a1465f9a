/** `POST /api/generate-story-with-images`: the story route's prompt and parse, followed
    by an attempt to illustrate the image prompts, first with Vertex AI and then, when
    that left no images, with Together AI. Each provider is reached through the app's
    own image routes; the call is an injected function from the request to its reply. */
module StoryWithImagesRoute {
  import opened Wrappers
  import opened Strings
  import opened StoryParser
  import opened StoryRoute

  /** The environment variables the route reads. */
  datatype Env = Env(useVertexAi: Option<string>, projectId: Option<string>, togetherApiKey: Option<string>)

  /** The JSON body posted to one of the image routes, with the URL it goes to. */
  datatype ImagesCall = ImagesCall(url: string, prompts: seq<string>, character: Option<string>, style: string)

  /** An element of a returned `images` array: a URL or data URI, or `null`. */
  type Image = Option<string>

  /** How an image route answered: the fetch or the JSON read threw, a non-2xx status,
      or a 2xx body whose `images` field may be absent. */
  datatype ProviderReply = ProviderThrew | ProviderNotOk | ProviderOk(images: Option<seq<Image>>)

  datatype Response =
    | StoryWithImages(story: Story, images: seq<Image>, character: string, genre: string, age: string)
    | Failure(status: nat, error: string)

  const IMAGE_STYLE: string := "cartoon"
  const VERTEX_IMAGES_PATH: string := "/api/generate-images-vertex"
  const TOGETHER_IMAGES_PATH: string := "/api/generate-images"

  /** Vertex AI is used only when `USE_VERTEX_AI` is exactly `true` and a project id is set. */
  predicate UseVertex(env: Env) {
    env.useVertexAi == Some("true") && IsSet(env.projectId)
  }

  /** The `origin` request header as a template literal writes it: an absent header is `null`. */
  function OriginText(origin: Option<string>): (r: string)
    ensures origin.Some? ==> r == origin.value
  {
    if origin.Some? then origin.value else "null"
  }

  function VertexCall(origin: Option<string>, imagePrompts: seq<string>): ImagesCall {
    ImagesCall(OriginText(origin) + VERTEX_IMAGES_PATH, imagePrompts, None, IMAGE_STYLE)
  }

  function TogetherCall(origin: Option<string>, imagePrompts: seq<string>, character: string): ImagesCall {
    ImagesCall(OriginText(origin) + TOGETHER_IMAGES_PATH, imagePrompts, Some(character), IMAGE_STYLE)
  }

  /** `imageData.images || []`, when the provider answered; the images so far otherwise. */
  function AfterReply(images: seq<Image>, reply: ProviderReply): (r: seq<Image>)
    ensures !reply.ProviderOk? ==> r == images
    ensures reply.ProviderOk? && reply.images.None? ==> r == []
    ensures reply.ProviderOk? && reply.images.Some? ==> r == reply.images.value
  {
    match reply
    case ProviderOk(Some(imgs)) => imgs
    case ProviderOk(None) => []
    case _ => images
  }

  /** The images the route returns: the Vertex step when it applies, then the Together
      step when that left none and a key is set. */
  function ImagesFor(env: Env, origin: Option<string>, imagePrompts: seq<string>, character: string,
                     vertex: ImagesCall -> ProviderReply, together: ImagesCall -> ProviderReply): seq<Image>
  {
    var afterVertex := if UseVertex(env) then AfterReply([], vertex(VertexCall(origin, imagePrompts))) else [];
    if |afterVertex| == 0 && IsSet(env.togetherApiKey) then
      AfterReply(afterVertex, together(TogetherCall(origin, imagePrompts, character)))
    else afterVertex
  }

  /** The provider step as the route runs it: `images` starts empty and is reassigned by
      each provider that answers. */
  method SelectImages(env: Env, origin: Option<string>, imagePrompts: seq<string>, character: string,
                      vertex: ImagesCall -> ProviderReply, together: ImagesCall -> ProviderReply)
    returns (images: seq<Image>)
    ensures images == ImagesFor(env, origin, imagePrompts, character, vertex, together)
    ensures !UseVertex(env) && !IsSet(env.togetherApiKey) ==> images == []
  {
    images := [];
    if UseVertex(env) {
      var reply := vertex(VertexCall(origin, imagePrompts));
      if reply.ProviderOk? {
        images := if reply.images.Some? then reply.images.value else [];
      }
    }
    if |images| == 0 && IsSet(env.togetherApiKey) {
      var reply := together(TogetherCall(origin, imagePrompts, character));
      if reply.ProviderOk? {
        images := if reply.images.Some? then reply.images.value else [];
      }
    }
  }

  /** Vertex AI is asked only when it is switched on: otherwise its answer cannot matter. */
  lemma VertexOnlyWhenEnabled(env: Env, origin: Option<string>, imagePrompts: seq<string>, character: string,
                              v1: ImagesCall -> ProviderReply, v2: ImagesCall -> ProviderReply,
                              together: ImagesCall -> ProviderReply)
    requires !UseVertex(env)
    ensures ImagesFor(env, origin, imagePrompts, character, v1, together)
         == ImagesFor(env, origin, imagePrompts, character, v2, together)
  {
  }

  /** Together AI is asked only when a key is set and the Vertex step left no images. */
  lemma TogetherOnlyAsFallback(env: Env, origin: Option<string>, imagePrompts: seq<string>, character: string,
                               vertex: ImagesCall -> ProviderReply,
                               t1: ImagesCall -> ProviderReply, t2: ImagesCall -> ProviderReply)
    requires !IsSet(env.togetherApiKey)
          || (UseVertex(env) && |AfterReply([], vertex(VertexCall(origin, imagePrompts)))| > 0)
    ensures ImagesFor(env, origin, imagePrompts, character, vertex, t1)
         == ImagesFor(env, origin, imagePrompts, character, vertex, t2)
    ensures ImagesFor(env, origin, imagePrompts, character, vertex, t1)
         == (if UseVertex(env) then AfterReply([], vertex(VertexCall(origin, imagePrompts))) else [])
  {
  }

  /** A provider that fails leaves the images as they were: a failed Vertex step hands over
      to Together exactly as a disabled one does, and a failed Together step keeps []. */
  lemma ProviderFailureKeepsImages(env: Env, origin: Option<string>, imagePrompts: seq<string>, character: string,
                                   vertex: ImagesCall -> ProviderReply, together: ImagesCall -> ProviderReply)
    ensures !vertex(VertexCall(origin, imagePrompts)).ProviderOk? ==>
      ImagesFor(env, origin, imagePrompts, character, vertex, together)
        == ImagesFor(env.(useVertexAi := None), origin, imagePrompts, character, vertex, together)
    ensures !vertex(VertexCall(origin, imagePrompts)).ProviderOk? && !together(TogetherCall(origin, imagePrompts, character)).ProviderOk? ==>
      ImagesFor(env, origin, imagePrompts, character, vertex, together) == []
  {
  }

  /** The route handler. `body` is the parsed request, or the message of the error reading
      it threw; `complete` is the language model. */
  method HandleStoryWithImages(body: Result<StoryRequest, string>, complete: string -> Completion,
                               env: Env, origin: Option<string>,
                               vertex: ImagesCall -> ProviderReply, together: ImagesCall -> ProviderReply)
    returns (resp: Response)
    ensures body.Err? ==> resp == Failure(500, ErrorMessage(body.error))
    ensures body.Ok? && complete(StoryPrompt(body.value)).CompletionFailed? ==>
      resp == Failure(500, ErrorMessage(complete(StoryPrompt(body.value)).message))
    ensures body.Ok? && complete(StoryPrompt(body.value)).Completed? ==>
      var r := body.value;
      var story := ParseStory(ContentOf(complete(StoryPrompt(r)).content));
      resp == StoryWithImages(story, ImagesFor(env, origin, story.imagePrompts, r.character, vertex, together),
                              r.character, r.genre, r.age)
    ensures resp.Failure? ==> resp.status == 500 && resp.error != ""
  {
    if body.Err? {
      return Failure(500, ErrorMessage(body.error));
    }
    var r := body.value;
    var completion := complete(StoryPrompt(r));
    if completion.CompletionFailed? {
      return Failure(500, ErrorMessage(completion.message));
    }
    var story := ParseStory(ContentOf(completion.content));
    var images := SelectImages(env, origin, story.imagePrompts, r.character, vertex, together);
    resp := StoryWithImages(story, images, r.character, r.genre, r.age);
  }

  /** The text part of a successful response is exactly what the plain story route returns. */
  lemma SameStoryAsStoryRoute(body: Result<StoryRequest, string>, complete: string -> Completion,
                              env: Env, origin: Option<string>,
                              vertex: ImagesCall -> ProviderReply, together: ImagesCall -> ProviderReply)
    requires body.Ok? && complete(StoryPrompt(body.value)).Completed?
    ensures HandleStory(body, complete).StoryOk?
    ensures HandleStory(body, complete).story
         == ParseStory(ContentOf(complete(StoryPrompt(body.value)).content))
  {
  }
}
