/** `POST /api/generate-story`: builds the six-page story prompt from the request, asks
    the language model for a completion, and parses the completion into a story. The
    model call is an injected function from the prompt to its outcome. */
module StoryRoute {
  import opened Wrappers
  import opened Strings
  import opened StoryParser

  /** The request body fields, as the text the prompt template interpolates. */
  datatype StoryRequest = StoryRequest(character: string, genre: string, age: string)

  /** What the chat completion call comes back with: it throws, or it yields the first
      choice's message content, which may be absent. */
  datatype Completion = CompletionFailed(message: string) | Completed(content: Option<string>)

  datatype StoryResponse =
    | StoryOk(story: Story, character: string, genre: string, age: string)
    | StoryError(status: nat, error: string)

  const FORMAT_TITLE: string := "[story title]"
  const FORMAT_PAGE: string := "[story text]"
  const FORMAT_IMAGE: string := "[brief visual description for illustration]"
  const DEFAULT_ERROR: string := "Failed to generate story"

  function Repeat(s: string, n: nat): (r: seq<string>)
    ensures |r| == n && forall i :: 0 <= i < n ==> r[i] == s
  {
    seq(n, _ => s)
  }

  /** The layout the prompt asks the model to follow: a title, six pages, six images. */
  function FormatBlock(): seq<string> {
    FormatResponse(FORMAT_TITLE, Repeat(FORMAT_PAGE, 6), Repeat(FORMAT_IMAGE, 6))
  }

  /** The requirement lines that precede the layout. */
  function PromptHeader(r: StoryRequest): seq<string> {
    [ "",
      "You are a children's book author. Create a 6-page story with these requirements:",
      "- Main character: " + r.character,
      "- Setting: " + r.genre + " ",
      "- Age group: " + r.age + " years old",
      "- Each page: 2-3 simple sentences",
      "- Include a gentle moral about friendship, kindness, or courage",
      "- Use age-appropriate vocabulary",
      "",
      "Format your response EXACTLY like this:" ]
  }

  /** The prompt: a blank first line, the requirements, the layout, and a final newline. */
  function StoryPrompt(r: StoryRequest): (p: string)
    ensures Contains(p, "- Main character: " + r.character)
    ensures Contains(p, "- Setting: " + r.genre + " ")
    ensures Contains(p, "- Age group: " + r.age + " years old")
  {
    var ls := PromptHeader(r) + FormatBlock() + [""];
    JoinContains(ls, "\n", 2);
    JoinContains(ls, "\n", 3);
    JoinContains(ls, "\n", 4);
    JoinLines(ls)
  }

  lemma {:induction false} JoinLinesThenBlank(h: seq<string>, f: seq<string>)
    requires |h| > 0 && |f| > 0
    ensures JoinLines(h + f + [""]) == JoinLines(h) + "\n" + JoinLines(f) + "\n"
  {
    assert h + f + [""] == h + (f + [""]);
    JoinAppend(h, f + [""], "\n");
    JoinAppend(f, [""], "\n");
    assert Join([""], "\n") == "";
  }

  /** The prompt is the requirements, then the layout on lines of its own. */
  lemma PromptEndsWithLayout(r: StoryRequest)
    ensures StoryPrompt(r) == JoinLines(PromptHeader(r)) + "\n" + JoinLines(FormatBlock()) + "\n"
  {
    JoinLinesThenBlank(PromptHeader(r), FormatBlock());
  }

  /** A bracketed placeholder of lower-case words, like the three the layout shows. */
  predicate IsPlaceholder(t: string) {
    && |t| >= 2 && t[0] == '[' && t[|t| - 1] == ']'
    && forall i :: 0 <= i < |t| ==> t[i] == '[' || t[i] == ']' || t[i] == ' ' || 'a' <= t[i] <= 'z'
  }

  lemma PlaceholderIsEntry(t: string)
    requires IsPlaceholder(t)
    ensures IsEntryText(t) && Trim(t) == t
  {
  }

  lemma PlaceholderHasNoHead(t: string)
    requires IsPlaceholder(t)
    ensures AllMatches(t, PAGE) == [] && AllMatches(t, IMAGE) == []
  {
    PatternFacts();
    NoMatches(t, PAGE);
    NoMatches(t, IMAGE);
  }

  lemma LayoutPlaceholders(title: string, page: string, image: string)
    requires title == FORMAT_TITLE && page == FORMAT_PAGE && image == FORMAT_IMAGE
    ensures IsPlaceholder(title) && IsPlaceholder(page) && IsPlaceholder(image)
  {
  }

  /** A layout like the one the prompt shows, with bracketed placeholders, is read as
      exactly six pages and six image prompts under the placeholder title. */
  lemma LayoutHasSixPagesAndImages(title: string, page: string, image: string)
    requires IsPlaceholder(title) && IsPlaceholder(page) && IsPlaceholder(image)
    ensures var story := ParseStory(JoinLines(FormatResponse(title, Repeat(page, 6), Repeat(image, 6))));
      && story == Story(title, Repeat(page, 6), Repeat(image, 6))
      && |story.pages| == 6 && |story.imagePrompts| == 6
  {
    var pages, images := Repeat(page, 6), Repeat(image, 6);
    PlaceholderIsEntry(title);
    PlaceholderHasNoHead(title);
    RepeatedPlaceholder(page, 6);
    RepeatedPlaceholder(image, 6);
    ParseFormattedResponse(title, pages, images);
  }

  /** Copies of a placeholder are entries with no head, unchanged by trimming. */
  lemma RepeatedPlaceholder(t: string, n: nat)
    requires IsPlaceholder(t)
    ensures forall i :: 0 <= i < n ==> IsEntryText(Repeat(t, n)[i])
    ensures forall i :: 0 <= i < n ==> AllMatches(Repeat(t, n)[i], PAGE) == [] && AllMatches(Repeat(t, n)[i], IMAGE) == []
    ensures TrimAll(Repeat(t, n)) == Repeat(t, n)
  {
    PlaceholderIsEntry(t);
    PlaceholderHasNoHead(t);
  }

  /** `completion.choices[0]?.message?.content || ''` */
  function ContentOf(c: Option<string>): string {
    match c
    case Some(s) => s
    case None => ""
  }

  /** `error.message || 'Failed to generate story'` */
  function ErrorMessage(message: string): (m: string)
    ensures m != ""
    ensures message != "" ==> m == message
    ensures message == "" ==> m == DEFAULT_ERROR
  {
    if message != "" then message else DEFAULT_ERROR
  }

  /** The response to a request once the model has answered. */
  function Respond(r: StoryRequest, outcome: Completion): StoryResponse {
    match outcome
    case CompletionFailed(m) => StoryError(500, ErrorMessage(m))
    case Completed(c) => StoryOk(ParseStory(ContentOf(c)), r.character, r.genre, r.age)
  }

  /** The route handler. `body` is the parsed request, or the message of the error reading
      it threw; `complete` is the language model. */
  function HandleStory(body: Result<StoryRequest, string>, complete: string -> Completion): (resp: StoryResponse)
    ensures body.Err? ==> resp == StoryError(500, ErrorMessage(body.error))
    ensures body.Ok? ==> resp == Respond(body.value, complete(StoryPrompt(body.value)))
  {
    match body
    case Err(m) => StoryError(500, ErrorMessage(m))
    case Ok(r) => Respond(r, complete(StoryPrompt(r)))
  }

  lemma RespondErrors(r: StoryRequest, outcome: Completion)
    ensures Respond(r, outcome).StoryError? ==> Respond(r, outcome).status == 500 && Respond(r, outcome).error != ""
    ensures outcome == Completed(None) ==> Respond(r, outcome) == StoryOk(Story(DEFAULT_TITLE, [], []), r.character, r.genre, r.age)
    ensures outcome.CompletionFailed? ==> Respond(r, outcome) == StoryError(500, ErrorMessage(outcome.message))
  {
  }

  /** Every failure is a 500 with a non-empty message; a missing completion is an empty
      story, not an error. */
  lemma HandleStoryErrors(body: Result<StoryRequest, string>, complete: string -> Completion)
    ensures var resp := HandleStory(body, complete);
      resp.StoryError? ==> resp.status == 500 && resp.error != ""
    ensures body.Ok? && complete(StoryPrompt(body.value)).Completed? && complete(StoryPrompt(body.value)).content.None? ==>
      HandleStory(body, complete) == StoryOk(Story(DEFAULT_TITLE, [], []), body.value.character, body.value.genre, body.value.age)
    ensures body.Ok? && complete(StoryPrompt(body.value)).CompletionFailed? ==>
      HandleStory(body, complete) == StoryError(500, ErrorMessage(complete(StoryPrompt(body.value)).message))
  {
    if body.Ok? {
      RespondErrors(body.value, complete(StoryPrompt(body.value)));
    }
  }

  /** A model that answers in the requested layout gets its title, pages and image
      descriptions back, trimmed and in order. */
  lemma FormattedCompletionRoundTrip(r: StoryRequest, title: string, pages: seq<string>, images: seq<string>,
                                     complete: string -> Completion)
    requires IsEntryText(title) && AllMatches(title, PAGE) == [] && AllMatches(title, IMAGE) == []
    requires forall i :: 0 <= i < |pages| ==> IsEntryText(pages[i]) && AllMatches(pages[i], IMAGE) == []
    requires forall i :: 0 <= i < |images| ==> IsEntryText(images[i]) && AllMatches(images[i], PAGE) == []
    requires complete(StoryPrompt(r)) == Completed(Some(JoinLines(FormatResponse(title, pages, images))))
    ensures HandleStory(Ok(r), complete)
      == StoryOk(Story(Trim(title), TrimAll(pages), TrimAll(images)), r.character, r.genre, r.age)
  {
    ParseFormattedResponse(title, pages, images);
  }
}
