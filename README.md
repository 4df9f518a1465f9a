# Story Weaver, modelled in Dafny

Story Weaver is a Next.js application that writes six-page children's stories with a
language model and illustrates them with generated images. This project models the
deterministic logic under its user interface and vendor calls, and proves properties
of that model:

- **Image generation.** The Vertex AI generator classifies HTTP failures, picks the image
  field of a prediction and normalises it into a `data:` URI (RFC 2397). The
  process-wide image cache has a composite key, a 24-hour freshness window, a write
  after each successful generation, and eviction of the oldest entry beyond 100 entries.
- **The story routes.**
  - The six-page prompt.
  - The parser that reads `Title:`, `Page n:` and `Image n:` lines out of the completion.
    It is modelled as the regular expressions actually scan, and proved to read back a
    completion laid out as requested.
  - The Vertex-then-Together provider fallback.
- **The image routes.**
  - Per-slot results, sorted in place by index, and the error list.
  - Null-to-placeholder fill, where all-failed counts as an error.
  - A three-attempt retry loop with growing waits.
- **The SVG fallback picture.** It is emitted as a base64 `data:` URI. Base64 follows
  section 4 of RFC 4648, applied to the UTF-8 bytes of the SVG text, and both are proved
  to round-trip.
- **The prompt builders.**
  - The consistent character appearance, with first-match outfit selection.
  - The personalised story and image prompts.
  - The character-details table and its two prompt helpers.
  - The story themes.
- **Small pieces of state.**
  - The child-profile store: a list mirrored to browser storage.
  - The profile form's interest toggling and submit guard.
  - The story reader's page cursor.
  - The route guard of `middleware.ts`.

Each core file is one module. Pure code becomes functions and lemmas. Code that updates
state in place becomes classes or methods with `modifies` clauses:

- `ImageCache.Cache`, `ChildProfiles.ProfileStore`, `ChildProfileForm.ProfileForm` and
  `StoryDisplay.StoryReader` are classes.
- `GenerateImagesRoute.SortByIndex` is an in-place insertion sort over an array.
- `TestStoryImagesRoute.RunAttempts` is the retry loop.
- `StoryWithImagesRoute.SelectImages` reassigns `images` step by step.

Vendor calls, clocks and random numbers are parameters:

- The Vertex HTTP exchange is a function from the request to the reply.
- The Groq completion, the Together call and the two image routes called over HTTP are
  also functions.
- `Date.now()` readings are integers.
- `Math.random()` draws are reals in `[0, 1)`.

`Strings` holds the JavaScript string operations the code uses: `trim`, `startsWith`,
`includes`, `toLowerCase`, `join`, number-to-text and line splitting. `Wrappers` holds
`Option` and `Result`.

## Model

| member | source | states |
|---|---|---|
| Base64.Encode | app/lib/fallback-images.ts:84 | The encoding has four characters for every started group of three bytes. |
| Base64.DecodeEncode | app/lib/fallback-images.ts:84 | Decoding the RFC 4648 section 4 encoding of any byte string gives the bytes back. |
| Base64.EncodeAlphabet | app/lib/fallback-images.ts:84 | Every character of an encoding is a Table 1 alphabet character or the pad `=`. |
| Base64.AlphabetRoundTrip | app/lib/fallback-images.ts:84 | The alphabet maps each 6-bit value to a character that maps back to it. |
| Utf8.EncodeChar | app/lib/fallback-images.ts:84 | A character takes one to four bytes, exactly one when it is ASCII, and the bytes after the first are continuation bytes. |
| Utf8.DecodeEncode | app/lib/fallback-images.ts:84 | Decoding the UTF-8 bytes of any string gives the string back. |
| Utf8.EncodeAscii | app/lib/fallback-images.ts:84 | An ASCII string is encoded one byte per character, with the character codes unchanged. |
| VertexAI.NewService | app/lib/vertex-ai.ts:7-32 | The constructor fails exactly for a credential blob that does not parse. Credentials are available exactly when one parsed. |
| VertexAI.RequestSeed | app/lib/vertex-ai.ts:65 | A seed is sent exactly when it is present and non-zero, and then unchanged. |
| VertexAI.BuildRequest | app/lib/vertex-ai.ts:52-67 | The prompt sent starts with `<prompt>, <style> style`. One sample is asked for, and the seed follows the truthy-seed rule. |
| VertexAI.Classify | app/lib/vertex-ai.ts:109-128 | The classes are: status 429 exactly for rate limiting; 400 exactly for an invalid request; 401 or 403 exactly for an authentication error. Every class but rate limiting carries the body's `error.message` or `Vertex AI API error: <status>`. |
| VertexAI.ClassifiedMessages | app/lib/vertex-ai.ts:109-128 | Gives the message thrown for each status class, including the fallback message for unlisted statuses. |
| VertexAI.ImageData | app/lib/vertex-ai.ts:157-162 | The image is the first truthy of `bytesBase64Encoded`, `base64Encoded`, `imageBytes` and `image`. There is none exactly when all four are falsy. |
| VertexAI.NormalizeImageData | app/lib/vertex-ai.ts:169-173 | The result always starts with `data:image`. Data that already starts so is unchanged. Other data follows the PNG base64 prefix verbatim. |
| VertexAI.NormalizeIdempotent | app/lib/vertex-ai.ts:169-173 | Normalising a normalised image changes nothing. |
| VertexAI.GuardsPrecedeRequest | app/lib/vertex-ai.ts:43-49 | A missing project id or missing credentials give an error whatever the vendor would answer, so no request is made. |
| VertexAI.GenerateImageOutcome | app/lib/vertex-ai.ts:140-180 | A success is always a `data:image` URI. A reply with no predictions, or whose first prediction has no image field, is the error `No image generated`. |
| VertexAI.GenerateImage | app/lib/vertex-ai.ts:34-188 | A missing project id, and then missing credentials, fail with their own messages before any request is made. A success is always a `data:image` URI. |
| ImageCache.SeedText | app/lib/vertex-ai.ts:196 | The seed part of the key is empty exactly when the generator sends no seed. |
| ImageCache.CacheKey | app/lib/vertex-ai.ts:196 | The key starts with `<prompt>_<style>_`. |
| ImageCache.CacheKeySeed | app/lib/vertex-ai.ts:196 | For one prompt and style, two calls share a key exactly when they send the same seed, so seed 0 and no seed share one. |
| ImageCache.Lookup | app/lib/vertex-ai.ts:197 | A lookup misses exactly when no entry has the key, and otherwise returns an entry stored under it. |
| ImageCache.LookupAt | app/lib/vertex-ai.ts:197 | With distinct keys, looking up an entry's key finds that entry. |
| ImageCache.Put | app/lib/vertex-ai.ts:206 | `set` adds one entry exactly when the key is new. |
| ImageCache.PutLookup | app/lib/vertex-ai.ts:206 | After `set`, the key maps to the new entry and every other key to what it mapped to before. |
| ImageCache.PutNewKey | app/lib/vertex-ai.ts:206 | A new key goes after all existing entries. |
| ImageCache.PutExistingKey | app/lib/vertex-ai.ts:206 | An existing key is overwritten where it stands. |
| ImageCache.PutDistinct | app/lib/vertex-ai.ts:206 | `set` keeps keys distinct. |
| ImageCache.OldestIndex | app/lib/vertex-ai.ts:210-212 | Gives the one entry that the stable ascending sort by timestamp puts first: a smallest timestamp, with every earlier-inserted entry strictly newer. |
| ImageCache.RemoveAtLookup | app/lib/vertex-ai.ts:212 | `delete` removes the evicted key only and keeps keys distinct. |
| ImageCache.StoreKeepsBound | app/lib/vertex-ai.ts:206-213 | A cache of at most 100 entries with distinct keys still has both properties after a write and eviction. |
| ImageCache.Store | app/lib/vertex-ai.ts:206-213 | A write that leaves at most 100 entries evicts nothing, including an overwrite in a full cache. A write with its eviction adds at most one entry. |
| ImageCache.StoreEvictsOldest | app/lib/vertex-ai.ts:209-213 | When a write makes more than 100 entries, exactly one is removed. It is an entry with the smallest timestamp, and every other key keeps its entry. |
| ImageCache.StoreKeepsNewest | app/lib/vertex-ai.ts:206-213 | An entry no older than any present survives the eviction and is what the next lookup finds. |
| ImageCache.Cache.constructor | app/lib/vertex-ai.ts:192 | The cache starts empty. |
| ImageCache.Cache.GenerateWithCache | app/lib/vertex-ai.ts:195-216 | A fresh hit returns the stored image without generating or changing the cache. Otherwise the generator runs. A success is stored with the later clock reading and then eviction is applied; a failure leaves the cache unchanged. The 100-entry bound and distinct keys are kept. |
| StoryParser.DigitRun | app/api/generate-story/route.ts:51 | `\d+` consumes the maximal run of digits. |
| StoryParser.MatchHere | app/api/generate-story/route.ts:48-55 | A match has a non-empty head and capture and ends at the end of a line. |
| StoryParser.Entries | app/api/generate-story/route.ts:52-55 | There is one entry per global match. |
| StoryParser.ParseStory | app/api/generate-story/route.ts:45-55 | There is one page per `Page \d+: (.+)` match and one image prompt per `Image` match. An empty completion gives `My Story` with no pages and no images. |
| StoryParser.MatchesSplit | app/api/generate-story/route.ts:51-55 | Matches never cross a line terminator. The matches of two texts joined by one are the matches of each, in order. |
| StoryParser.MatchesByLine | app/api/generate-story/route.ts:51-55 | The global scan of a text is the per-line scan of its lines. Lines that do not fit the grammar contribute nothing. |
| StoryParser.FirstMatchIsFirst | app/api/generate-story/route.ts:48-49 | The non-global title match is absent exactly when there is no global match, and is otherwise the first one with its head removed. |
| StoryParser.CaptureOfMatch | app/api/generate-story/route.ts:52 | Removing the head from a match's text leaves its captured group. |
| StoryParser.EntryLineMatches | app/api/generate-story/route.ts:51-55 | A line `<word> n: text` is one match spanning the line, and reads back as `text`. |
| StoryParser.NoMatches | app/api/generate-story/route.ts:51-55 | A text with no character a match could start at has no match. |
| StoryParser.SkipPrefix | app/api/generate-story/route.ts:51-55 | A prefix where no match can start adds no matches. |
| StoryParser.EntryLineOther | app/api/generate-story/route.ts:51-55 | The head of another pattern's line holds no start of a match. |
| StoryParser.PatternFacts | app/api/generate-story/route.ts:48-55 | The `Title`, `Page` and `Image` patterns are well formed and cannot be confused with one another. |
| StoryParser.NumberedLinesOwn | app/api/generate-story/route.ts:51-55 | Numbered lines of a pattern are each one match of it. |
| StoryParser.NumberedLinesOther | app/api/generate-story/route.ts:51-55 | Numbered lines of one pattern hold no match of another. |
| StoryParser.FormatPageMatches | app/api/generate-story/route.ts:51 | In a formatted response only the `Page n:` lines match the page pattern. |
| StoryParser.FormatImageMatches | app/api/generate-story/route.ts:54 | In a formatted response only the `Image n:` lines match the image pattern. |
| StoryParser.EntriesOfNumberedLines | app/api/generate-story/route.ts:52-55 | The entries read from numbered lines are the trimmed texts. |
| StoryParser.FormattedTitle | app/api/generate-story/route.ts:48-49 | The title line of a formatted response is what the title match captures. |
| StoryParser.ParseFormattedResponse | app/api/generate-story/route.ts:45-55 | A completion laid out as the prompt requests is read back as its trimmed title, pages and image prompts. |
| StoryRoute.Repeat | app/api/generate-story/route.ts:23-35 | There are `n` copies of the line. |
| StoryRoute.PromptEndsWithLayout | app/api/generate-story/route.ts:11-36 | The prompt is the requirement lines, then the layout block, then a final newline. |
| StoryRoute.StoryPrompt | app/api/generate-story/route.ts:11-36 | The prompt carries the main-character, setting and age-group lines built from the request. |
| StoryRoute.PlaceholderIsEntry | app/api/generate-story/route.ts:21-35 | A bracketed placeholder is usable entry text and is unchanged by trimming. |
| StoryRoute.LayoutPlaceholders | app/api/generate-story/route.ts:21-35 | The three placeholders of the layout are bracketed placeholders. |
| StoryRoute.LayoutHasSixPagesAndImages | app/api/generate-story/route.ts:11-36 | A layout with such placeholders parses to exactly six pages and six image prompts. |
| StoryRoute.ErrorMessage | app/api/generate-story/route.ts:65-70 | The error text is never empty: the thrown message, or `Failed to generate story`. |
| StoryRoute.HandleStoryErrors | app/api/generate-story/route.ts:7-70 | Every failure is a 500 with a non-empty message. A missing completion is parsed as empty text. |
| StoryRoute.HandleStory | app/api/generate-story/route.ts:7-70 | A body that cannot be read is a 500 with its message, or `Failed to generate story` when that is empty. Otherwise the model is asked once, with the story prompt built from the request, and the response comes from its answer. |
| StoryRoute.FormattedCompletionRoundTrip | app/api/generate-story/route.ts:38-64 | A model answering in the requested layout gets its trimmed title, pages and images back in the response. |
| StoryWithImagesRoute.OriginText | app/api/generate-story-with-images/route.ts:65 | A present `origin` header is written verbatim into the URL. |
| StoryWithImagesRoute.AfterReply | app/api/generate-story-with-images/route.ts:74-87 | A failed provider leaves `images` unchanged. A successful one gives its `images`, or `[]` when that field is absent. |
| StoryWithImagesRoute.SelectImages | app/api/generate-story-with-images/route.ts:59-111 | The step-by-step reassignment computes the fallback order, and gives `[]` when neither provider is configured. |
| StoryWithImagesRoute.VertexOnlyWhenEnabled | app/api/generate-story-with-images/route.ts:60-62 | Unless `USE_VERTEX_AI` is `true` and a project id is set, Vertex's answer cannot matter. |
| StoryWithImagesRoute.TogetherOnlyAsFallback | app/api/generate-story-with-images/route.ts:91 | Without a Together key, or after Vertex returned images, Together's answer cannot matter. |
| StoryWithImagesRoute.ProviderFailureKeepsImages | app/api/generate-story-with-images/route.ts:74-110 | A failed Vertex step hands over to Together as a disabled one does. Both failing gives `[]`, not an error. |
| StoryWithImagesRoute.HandleStoryWithImages | app/api/generate-story-with-images/route.ts:7-128 | A request or completion failure is a 500 with a non-empty message. Otherwise the response is the parsed story with the images chosen by the fallback order. |
| StoryWithImagesRoute.SameStoryAsStoryRoute | app/api/generate-story-with-images/route.ts:46-56 | The story text is parsed exactly as the plain story route parses it. |
| GenerateImagesRoute.Modifier | app/api/generate-images/route.ts:16-22 | `cartoon`, `watercolor` and `realistic` give their modifiers. An absent or any other style gives the cartoon one. |
| GenerateImagesRoute.SlotFor | app/api/generate-images/route.ts:25-51 | A thrown call gives a slot with no url and the error message. A successful one gives the `url`, else the `b64_json`, with the prompt. |
| GenerateImagesRoute.Slots | app/api/generate-images/route.ts:25-53 | There is one slot per prompt, in prompt order, each from that prompt's enhanced prompt. |
| GenerateImagesRoute.SwapDown | app/api/generate-images/route.ts:56 | Exchanging two neighbours permutes the array. |
| GenerateImagesRoute.InsertAt | app/api/generate-images/route.ts:56 | One insertion step extends the sorted prefix, permutes the array, and leaves an already sorted prefix unchanged. |
| GenerateImagesRoute.SortByIndex | app/api/generate-images/route.ts:56 | The array ends sorted by index as a permutation of what it held. An already sorted array is left unchanged. |
| GenerateImagesRoute.ErrorListSound | app/api/generate-images/route.ts:60 | Every listed error names a slot that carries exactly that message. |
| GenerateImagesRoute.ErrorListAscending | app/api/generate-images/route.ts:60 | The error list is strictly ascending by index. |
| GenerateImagesRoute.ErrorListComplete | app/api/generate-images/route.ts:60 | Every slot carrying a non-empty message is listed. |
| GenerateImagesRoute.ErrorText | app/api/generate-images/route.ts:62-67 | The text of a thrown error is never empty. |
| GenerateImagesRoute.HandleGenerateImages | app/api/generate-images/route.ts:7-68 | Missing or non-array `prompts` gives 400 `Invalid prompts`. A body failure gives a 500. Otherwise the response has the sorted slots' urls and the error list. |
| GenerateImagesRoute.ImagesMatchPrompts | app/api/generate-images/route.ts:53-60 | `images[i]` belongs to `prompts[i]`, a failed slot has no image, and errors are listed exactly for failed slots. |
| GenerateImagesVertexRoute.Placeholder | app/api/generate-images-vertex/route.ts:41-45 | The placeholder is an SVG `data:` URI. |
| GenerateImagesVertexRoute.StyleOf | app/api/generate-images-vertex/route.ts:6 | The style defaults to `digital art`. |
| GenerateImagesVertexRoute.Settled | app/api/generate-images-vertex/route.ts:23-31 | There is one settled value per prompt: its image when generation succeeded, `null` otherwise. |
| GenerateImagesVertexRoute.SuccessCount | app/api/generate-images-vertex/route.ts:34 | The count is zero exactly when every slot is `null`. |
| GenerateImagesVertexRoute.FillPlaceholders | app/api/generate-images-vertex/route.ts:41-45 | The length is kept, a truthy image is kept, and every other slot becomes the given placeholder (the route passes its grey placeholder picture). |
| GenerateImagesVertexRoute.HandleVertexImages | app/api/generate-images-vertex/route.ts:4-55 | A body that cannot be read is reported first, as `Failed to generate images: <message>`. For any readable body, a missing project id or credentials gives its 500, even when `prompts` is not an array. That case fails only after both checks, with the message of the failed `map`. Every failure is a 500. A success has one image per prompt. |
| GenerateImagesVertexRoute.ConfigBeforeGeneration | app/api/generate-images-vertex/route.ts:8-20 | A missing configuration gives a failure whatever the generator would do. |
| GenerateImagesVertexRoute.AllFailedIsAnError | app/api/generate-images-vertex/route.ts:34-38 | When every generation fails, including with no prompts, the response is 500 `Failed to generate images: All image generations failed`. |
| GenerateImagesVertexRoute.SomeSucceededFills | app/api/generate-images-vertex/route.ts:41-47 | When one succeeds, each slot holds its own image or the placeholder, and no slot is empty. |
| GenerateImagesVertexRoute.PlaceholderDecodes | app/api/generate-images-vertex/route.ts:42-44 | The placeholder's payload decodes to the grey placeholder SVG. |
| TestStoryImagesRoute.Preview | app/api/test-story-images/route.ts:28 | The preview is a prefix of at most 100 characters, and the whole image when it is short. |
| TestStoryImagesRoute.AttemptRecord | app/api/test-story-images/route.ts:23-44 | Attempt `k` is numbered `k + 1` and is a success exactly when the generation succeeded. |
| TestStoryImagesRoute.FirstSuccess | app/api/test-story-images/route.ts:16-34 | Gives the first successful attempt at or after `from`, or 3 when none succeeds. |
| TestStoryImagesRoute.RunAttempts | app/api/test-story-images/route.ts:16-58 | Every attempt asks the cached generator for the request's prompt in the `digital art` style. The loop records one attempt per try, stopping at the first success, and only the last record can be a success. `success` and `finalImage` come from that attempt; otherwise the error is `All attempts failed`. The waits are `(i + 1) * 2000` after each failure but the last. |
| TestStoryImagesRoute.FirstSuccessIs | app/api/test-story-images/route.ts:16-34 | The attempt the loop stopped at is the first success. |
| TestStoryImagesRoute.WaitsIncrease | app/api/test-story-images/route.ts:46-51 | The waits are 2000 ms then 4000 ms, and strictly increase. |
| TestStoryImagesRoute.HandleTestStoryImages | app/api/test-story-images/route.ts:4-69 | A readable body gives the report `RunAttempts` promises (`ReportOf`) for the given prompt, or the dragon sentence by default. That prompt is the one every attempt generates, in the `digital art` style, with one to three attempts. A body failure is a 500 with the thrown message, and no waits. |
| FallbackImages.PaletteOf | app/lib/fallback-images.ts:7-15 | The palette is entry `index mod 5`. |
| FallbackImages.SceneOf | app/lib/fallback-images.ts:29-35 | The scene captions cycle `Adventure Begins`, `Magical Journey`, `Happy Ending` with `index mod 3`. |
| FallbackImages.GlyphOf | app/lib/fallback-images.ts:5-27 | The glyph is the table's for a known character, the hero's for none, and `⭐` otherwise. |
| FallbackImages.SvgDataUri | app/lib/fallback-images.ts:84 | The URI is the SVG prefix followed by the base64 of the UTF-8 bytes of the text. |
| FallbackImages.SvgDataUriDecodes | app/lib/fallback-images.ts:84 | The payload decodes back to the SVG text. |
| FallbackImages.FallbackImage | app/lib/fallback-images.ts:2-85 | The output always starts with `data:image/svg+xml;base64,`. |
| FallbackImages.FallbackImageDecodes | app/lib/fallback-images.ts:2-85 | The payload is the SVG of the page's palette, glyph and scene. |
| FallbackImages.PeriodFifteen | app/lib/fallback-images.ts:15-35 | Pages fifteen apart give the same picture. |
| FallbackImages.PromptIgnored | app/lib/fallback-images.ts:2-84 | The prompt has no influence on the output. |
| CharacterConsistency.Hair | app/lib/character-consistency.ts:23-29 | Boy gives dark brown short neat hair. Girl gives medium brown shoulder-length hair with bangs. Anything else gives auburn medium wavy hair. |
| CharacterConsistency.PrimaryInterest | app/lib/character-consistency.ts:34 | This is the first interest, or the empty string when there is none. |
| CharacterConsistency.FirstMatching | app/lib/character-consistency.ts:102-106 | Gives the first entry whose key's lower-cased first word occurs in the lower-cased interest, or none. |
| CharacterConsistency.ClothingFrom | app/lib/character-consistency.ts:49-115 | The outfit is the first matching entry's, and the default yellow rainbow outfit when none matches. |
| CharacterConsistency.ConsistentCharacter | app/lib/character-consistency.ts:20-46 | The name and age are copied. The gender is the profile's or `child`. Skin and eyes are constant, hair follows gender, and clothing follows the first interest. |
| CharacterConsistency.SameLookForSameTraits | app/lib/character-consistency.ts:20-46 | Profiles alike in name, age, gender and first interest get the same appearance. |
| CharacterConsistency.ToLowerIdempotent | app/lib/character-consistency.ts:103 | Lower-casing twice is lower-casing once. |
| CharacterConsistency.ClothingIgnoresCase | app/lib/character-consistency.ts:103 | The outfit does not depend on the case of the interest. |
| CharacterConsistency.FirstMatchingIgnoresCase | app/lib/character-consistency.ts:103 | The first match does not depend on the case of the interest. |
| CharacterConsistency.NoInterestDefault | app/lib/character-consistency.ts:102-114 | The empty interest gives the default outfit when no key starts with a space. |
| CharacterConsistency.ClothingKeysStartWithLetter | app/lib/character-consistency.ts:50-99 | The table has eight keys, none empty or starting with a space. |
| CharacterConsistency.NoInterestsDefaultOutfit | app/lib/character-consistency.ts:108-114 | A profile without interests wears the default outfit. |
| CharacterConsistency.ClothingListMentions | app/lib/character-consistency.ts:119 | The clothing sentence names all four items. |
| CharacterConsistency.DetailedPromptMentions | app/lib/character-consistency.ts:117-122 | The detailed prompt opens with the name, age and gender and names all four clothing items. |
| CharacterConsistency.DetailedPrompt | app/lib/character-consistency.ts:117-122 | The prompt opens `<name> is a <age>-year-old <gender> with ` and carries the whole clothing list. |
| CharacterConsistency.ImageConsistencyPromptLayout | app/lib/character-consistency.ts:124-139 | The prompt begins with the scene, carries the detailed prompt right after the appearance header, and ends with the six consistency rules. |
| CharacterConsistency.ImageConsistencyPrompt | app/lib/character-consistency.ts:124-139 | The prompt begins with the scene description and contains the detailed character prompt. |
| StoryPersonalization.FindLevel | app/lib/story-personalization.ts:40 | Gives the first reading level whose value equals the profile's, or none. |
| StoryPersonalization.ReadingLevelLabel | app/lib/story-personalization.ts:40 | The label is the matching level's, or that of `READING_LEVELS[2]` when none matches. |
| StoryPersonalization.GuideFor | app/lib/story-personalization.ts:43-58 | Gives the table's non-empty entry for the level, otherwise the fallback. |
| StoryPersonalization.LevelsAreGuideKeys | app/lib/story-personalization.ts:43-58 | Both guide tables have the same keys, and every reading level is one of them. |
| StoryPersonalization.UnknownLevelDefaults | app/lib/story-personalization.ts:40-58 | An unknown level falls back in the label, the sentence guide and the vocabulary guide. |
| StoryPersonalization.PrimaryInterests | app/lib/story-personalization.ts:61 | Gives none, the one interest, or the first two joined by ` and `. |
| StoryPersonalization.AllInterests | app/lib/story-personalization.ts:62-65 | Gives the interests, followed by the free-form interests when those are non-empty. |
| StoryPersonalization.Pronouns | app/lib/story-personalization.ts:68-72 | Boy gives he/him, girl gives she/her, and other or absent gives they/them. Any other gender looks up nothing, and the template writes `undefined`. |
| StoryPersonalization.GenderOrChild | app/lib/story-personalization.ts:107 | Gives the gender, or `child`. |
| StoryPersonalization.PersonalPages | app/lib/story-personalization.ts:100-105 | There are six page lines. |
| StoryPersonalization.PersonalImages | app/lib/story-personalization.ts:107-112 | There are six image lines. |
| StoryPersonalization.PersonalizedStoryPrompt | app/lib/story-personalization.ts:4-113 | Without a profile, this is the default prompt. |
| StoryPersonalization.DefaultPromptIsStoryRoutePrompt | app/lib/story-personalization.ts:10-37 | The default prompt is the story route's prompt for the same request, less its final newline. |
| StoryPersonalization.PersonalizedPromptLayout | app/lib/story-personalization.ts:74-112 | The personalised prompt ends with a layout of six pages and six images under a title starting `<name>'s`. |
| StoryPersonalization.ImageStyle | app/lib/story-personalization.ts:124 | The style is `simple, bright cartoon` exactly when age is at most 5, and `detailed cartoon` otherwise. |
| StoryPersonalization.Personalize | app/lib/story-personalization.ts:130-133 | A base prompt mentioning none of the three phrases, ignoring case, is unchanged. |
| StoryPersonalization.BracketMentionBecomesName | app/lib/story-personalization.ts:130-133 | In a base without the first two phrases, the text before the first `[character]` (in any case) is kept and that mention becomes the child's name. The rest is personalised the same way. |
| Strings.ReplaceSkipsToMatch | app/lib/story-personalization.ts:131-133 | A global, case-insensitive replace keeps every character before the first match unchanged. |
| Strings.ReplaceFirstMatch | app/lib/story-personalization.ts:131-133 | The first match is replaced, and the replace resumes right after it, so matches do not overlap. |
| StoryPersonalization.InterestElements | app/lib/story-personalization.ts:136-138 | The suffix names the first interest, and is empty without interests. |
| StoryPersonalization.PersonalizedImagePrompt | app/lib/story-personalization.ts:115-141 | Without a profile, the base prompt comes back unchanged. With a profile, the result starts `Children's book illustration: `. |
| StoryPersonalization.ImagePromptParts | app/lib/story-personalization.ts:130-140 | With a profile, the prompt is the prefix, then the personalised text with the interest suffix, then the style and age tail. |
| StoryPersonalization.NoMentionOnlyWrapped | app/lib/story-personalization.ts:130-140 | A base that never names the character is only wrapped, not rewritten. |
| CharacterDetails.Values | app/data/character-details.ts:193-199 | Gives the record's values in declaration order. |
| CharacterDetails.EquipmentText | app/data/character-details.ts:201 | The text is empty without equipment. |
| CharacterDetails.Segments | app/data/character-details.ts:203 | There are five segments. |
| CharacterDetails.ImagePromptIn | app/data/character-details.ts:189-204 | The prompt is empty exactly for an unknown id, and otherwise starts with the core identity. |
| CharacterDetails.ImagePrompt | app/data/character-details.ts:189-204 | Over the character table, the prompt is empty exactly for an id the table lacks, and otherwise starts with that character's core identity. |
| CharacterDetails.DescribeMentions | app/data/character-details.ts:193-203 | The image prompt names every feature, clothing item and piece of equipment, and the style notes. |
| CharacterDetails.NoEquipmentEmptySegment | app/data/character-details.ts:201-203 | Without equipment, the equipment segment is empty. |
| CharacterDetails.ConsistencyPromptIn | app/data/character-details.ts:207-216 | The prompt is empty for an unknown id. It starts `<childName> as a <name>:` with a non-empty child name, and `The <name>:` otherwise. |
| CharacterDetails.ConsistencyPrompt | app/data/character-details.ts:207-216 | Over the character table, the prompt is empty for an unknown id. It starts `<childName> as a <name>:` with a non-empty child name, and `The <name>:` otherwise. |
| CharacterDetails.HelpersAgreeOnKnownIds | app/data/character-details.ts:190-209 | Both helpers are empty for exactly the same ids. |
| CharacterDetails.TableInvariants | app/data/character-details.ts:18-186 | The keys are the six characters, each `id` equals its key, and each starts with a `description` feature. Dragon and cat have no equipment. |
| CharacterDetails.TableSize | app/data/character-details.ts:18-186 | The table has six entries. |
| StoryThemes.FindTheme | app/data/story-themes.ts:78 | Gives the first theme with the id, or none. |
| StoryThemes.ThemeByIdIn | app/data/story-themes.ts:77-79 | A theme found has the id and is in the table. Nothing is found exactly when no theme has the id. |
| StoryThemes.ThemeById | app/data/story-themes.ts:77-79 | Over the eight themes, a theme found has the id and is one of them. Nothing is found exactly when no theme has the id. |
| StoryThemes.ThemeByIdUnique | app/data/story-themes.ts:77-79 | With distinct ids, the theme found is the one with that id. |
| StoryThemes.ThemesTable | app/data/story-themes.ts:10-75 | There are eight themes, each with five settings and five plot elements. |
| StoryThemes.ThemeIdsDistinct | app/data/story-themes.ts:10-75 | The theme ids are distinct. |
| StoryThemes.Pick | app/data/story-themes.ts:88-89 | `Math.floor(draw * n)` is a valid index. |
| StoryThemes.PickReachesEvery | app/data/story-themes.ts:88-89 | Every index can be drawn. |
| StoryThemes.ThemePromptElementsIn | app/data/story-themes.ts:81-92 | An unknown id gives `magical land` and `adventure`. A known id gives a setting and a plot element of that theme. |
| StoryThemes.ThemePromptElements | app/data/story-themes.ts:81-92 | Over the eight themes, an unknown id gives `magical land` and `adventure`. A known id gives a setting and a plot element of that theme. |
| StoryThemes.EveryElementReachable | app/data/story-themes.ts:88-91 | Every setting and plot element of a known theme can come out. |
| ChildProfiles.StorageKey | app/hooks/useChildProfiles.ts:17 | The key is `child-profiles-` followed by the parent's email. |
| ChildProfiles.NewProfile | app/hooks/useChildProfiles.ts:31-37 | The new profile has the input's fields, the clock as its id, the creation time and the parent's email. |
| ChildProfiles.MergeNothing | app/hooks/useChildProfiles.ts:44 | An empty update changes nothing. |
| ChildProfiles.UpdateProfiles | app/hooks/useChildProfiles.ts:42-45 | Length and order are kept. The update is merged over every profile with the id, and the others are unchanged. |
| ChildProfiles.DeleteProfiles | app/hooks/useChildProfiles.ts:49-51 | No profile with the id is left, every other profile stays, and nothing is added. |
| ChildProfiles.DeleteProfilesFilters | app/hooks/useChildProfiles.ts:49-51 | The result is a subsequence of the list. Each profile without the id keeps its multiplicity, and profiles with it occur zero times. |
| ChildProfiles.DeleteProfilesAppend | app/hooks/useChildProfiles.ts:50 | Deletion works piece by piece, so the rest keep their order. |
| ChildProfiles.DeleteAbsent | app/hooks/useChildProfiles.ts:50 | Deleting an unknown id changes nothing. |
| ChildProfiles.AddThenDelete | app/hooks/useChildProfiles.ts:31-51 | Deleting a just-added profile with a new id restores the list. |
| ChildProfiles.UpdateAbsent | app/hooks/useChildProfiles.ts:42-45 | Updating an unknown id changes nothing. |
| ChildProfiles.ProfileStore.constructor | app/hooks/useChildProfiles.ts:16 | The list starts empty over the existing storage. |
| ChildProfiles.ProfileStore.Load | app/hooks/useChildProfiles.ts:19-24 | The state is replaced only when the key holds a value. Storage is unchanged. |
| ChildProfiles.ProfileStore.Save | app/hooks/useChildProfiles.ts:26-29 | The same list goes to storage under the key and to state. |
| ChildProfiles.ProfileStore.Add | app/hooks/useChildProfiles.ts:31-40 | One new profile is appended and returned, and storage mirrors the list. |
| ChildProfiles.ProfileStore.Update | app/hooks/useChildProfiles.ts:42-47 | The list becomes the updated list, and storage mirrors it. |
| ChildProfiles.ProfileStore.Delete | app/hooks/useChildProfiles.ts:49-51 | The list becomes the filtered list, and storage mirrors it. |
| ChildProfileForm.RemoveAll | app/components/ChildProfileForm.tsx:34 | The filter removes every occurrence and keeps every other interest. The result is a subsequence of the list, and every other interest keeps its multiplicity. |
| ChildProfileForm.ToggleInterest | app/components/ChildProfileForm.tsx:31-37 | A present interest is removed entirely, and an absent one is appended. Other interests are unaffected. |
| ChildProfileForm.RemoveAbsent | app/components/ChildProfileForm.tsx:34 | Filtering out an absent interest changes nothing. |
| ChildProfileForm.ToggleTwiceRestores | app/components/ChildProfileForm.tsx:32-36 | Toggling an absent interest twice restores the list. |
| ChildProfileForm.ToggleKeepsNoDuplicates | app/components/ChildProfileForm.tsx:31-37 | A duplicate-free list stays duplicate-free. |
| ChildProfileForm.DisabledExactlyWhenGuardFails | app/components/ChildProfileForm.tsx:134 | The submit button is disabled exactly when the submit guard fails. |
| ChildProfileForm.ProfileForm.constructor | app/components/ChildProfileForm.tsx:19-22 | Without a profile: name `''`, age 5, gender `boy`, no interests. Otherwise the profile's values, with age 0 or a missing gender falling back. |
| ChildProfileForm.ProfileForm.Toggle | app/components/ChildProfileForm.tsx:31-37 | Applies the toggle and keeps a duplicate-free list duplicate-free. The other fields are unchanged. |
| ChildProfileForm.ProfileForm.Submit | app/components/ChildProfileForm.tsx:24-29 | Submits exactly when the trimmed name is non-empty and there is an interest. It passes the trimmed name, the age, the gender and the interests. |
| StoryDisplay.NextPage | app/components/StoryDisplay.tsx:18-22 | Moves one page on only while before the last page. |
| StoryDisplay.PrevPage | app/components/StoryDisplay.tsx:24-28 | Moves one page back only after the first page. |
| StoryDisplay.MovesStayInRange | app/components/StoryDisplay.tsx:16-28 | Both moves keep `0 <= currentPage <= max(0, pages - 1)`. |
| StoryDisplay.PrevUndoesNext | app/components/StoryDisplay.tsx:18-28 | Going back after going on returns to the same page. |
| StoryDisplay.NextTimesFromStart | app/components/StoryDisplay.tsx:16-22 | From page 0, `k` presses of Next reach page `k`, or the last page. |
| StoryDisplay.DisabledMeansNoMove | app/components/StoryDisplay.tsx:70-78 | Each button is disabled exactly when it would not move. The exception is Next with no pages, which stays enabled and does nothing. |
| StoryDisplay.VisualFor | app/components/StoryDisplay.tsx:38-53 | The image is shown exactly when the story has images and the current one is truthy. Otherwise the caption is the image prompt, or empty past the prompts. |
| StoryDisplay.PageLabelInjective | app/components/StoryDisplay.tsx:61-63 | Different pages have different `Page n of m` labels. |
| StoryDisplay.StoryReader.constructor | app/components/StoryDisplay.tsx:16 | The cursor starts at page 0. |
| StoryDisplay.StoryReader.Next | app/components/StoryDisplay.tsx:18-22 | Applies `nextPage` and keeps the cursor in range. |
| StoryDisplay.StoryReader.Prev | app/components/StoryDisplay.tsx:24-28 | Applies `prevPage` and keeps the cursor in range. |
| StoryDisplay.StoryReader.Render | app/components/StoryDisplay.tsx:38-63 | Gives the illustration choice, the page's text (none without pages), and the label. |
| Middleware.Decide | middleware.ts:4-20 | No cookie and a `/dashboard` path redirect to `/login`. A cookie and a `/login` path redirect to `/dashboard`. Everything else passes through. |
| Middleware.OnlyPresenceMatters | middleware.ts:5-17 | Only the cookie's presence counts, never its value. |
| Middleware.NoRedirectLoop | middleware.ts:10-17 | The page a redirect leads to lets the same visitor through. |
| Middleware.Route | middleware.ts:22-24 | Paths outside the matcher always pass through. |
| Middleware.MatchedRedirects | middleware.ts:10-24 | Gives the decision on each matched path: the dashboard and paths under it, and the login page. |

## Left out

- The vendor calls are parameters, not models. These are the Google token exchange and
  the Vertex HTTP call, the Groq completion, the Together image call, and the two image
  routes called over HTTP. Their replies are datatypes, and nothing is assumed about
  their contents.
- `Promise.all` is modelled as a sequential map: only the order and length of the
  results matter to the code. The cache is therefore not shared between calls running at
  the same time.
- `Date.now()` and `new Date().toISOString()` readings are parameters. The `setTimeout`
  waits are recorded as durations and not slept.
- `Math.random()` is a real in `[0, 1)`, not a double, so rounding of `draw * n` is not
  modelled.
- Console logging is not modelled. Neither is the `GOOGLE_CREDENTIALS_BASE64` decoding and
  `JSON.parse` in the service constructor: its outcome is an input (`Credentials`).
- JSON parsing of request and response bodies is not modelled. A body that cannot be
  read or destructured is one of the given error inputs, and so is a `prompts` that is
  not an array, with the message its failed `map` throws. An array holding values other
  than strings is not modelled.
- `localStorage` is a map from keys to profile lists. The JSON round trip through the
  stored text is not modelled.
- React rendering, styling and the form's `setName`/`setAge`/`setGender` input handlers
  are left out. Only the state logic is modelled.
- Numbers are integers. `NaN` and non-integer ages are not modelled; they are possible in
  JavaScript through `age || 5` and the form.
- The `emoji` field of character details and the `personalityPose` field are carried in
  the table, but neither helper reads them.
- `ChildProfile` in the hook's interface has no `readingLevel` or `freeFormInterests`.
  The personaliser reads both, so both are optional fields of the profile here.
- A `Partial<ChildProfile>` update carrying an explicit `undefined` is not modelled: an
  update field is either absent or a value.
- Record tables are looked up as maps. A key such as `constructor` would find an inherited
  property of the JavaScript object, and this is not modelled.
- Strings.ToLower: lower-cases ASCII letters only, weaker than JavaScript's full Unicode
  `toLowerCase`. The regular-expression `/i` flag is modelled the same way.
- Strings.ReplaceAllIgnoringCase: the replacement text is inserted literally. A `$`
  pattern in a replacement, which JavaScript would expand, is not modelled.
- TestStoryImagesRoute.Preview: lengths and the 100-character preview count characters
  (code points). JavaScript's `length` and `substring` count UTF-16 code units, so the
  two differ for text outside the Basic Multilingual Plane.
- VertexAI.GenerateImage and ImageCache.Cache.GenerateWithCache: the default argument
  `style = 'digital art'` is not modelled, and the style is always given. Every caller in
  the model passes one.
- Strings.IntToString: only integers are written. JavaScript's number-to-string for
  fractions, exponents and `NaN` is left out.
- The matcher in `middleware.ts` is modelled for the paths it lists (`/dashboard`,
  `/dashboard/...` and `/login`). Other Next.js matching details, such as trailing
  slashes, locales and `_next` paths, are not.
- The story route's Groq settings (model name, temperature, token limit) and the Together
  and Vertex request parameters other than those in `BuildRequest` are not part of the
  model.
