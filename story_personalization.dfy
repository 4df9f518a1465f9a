/** Story and image prompts tailored to a child profile. Without a profile the story
    prompt is the plain six-page template and the image prompt is left as it is. */
module StoryPersonalization {
  import opened Wrappers
  import opened Strings
  import opened StoryParser
  import StoryRoute
  import ChildProfiles

  /** The reading levels, as `(value, label)` pairs in their listed order. */
  const READING_LEVELS: seq<(string, string)> := [
    ("pre-reader", "Pre-reader (Pictures only)"),
    ("early-reader", "Early Reader (Simple words)"),
    ("beginner", "Beginner (Short sentences)"),
    ("intermediate", "Intermediate (Paragraphs)"),
    ("advanced", "Advanced (Chapter books)")
  ]

  /** The reading level used when the profile's is missing or unknown. */
  const DEFAULT_LEVEL_INDEX: nat := 2

  const SENTENCE_STRUCTURE: map<string, string> := map[
    "pre-reader" := "1 very short sentence (3-5 words)",
    "early-reader" := "1-2 short sentences (5-7 words each)",
    "beginner" := "2-3 simple sentences",
    "intermediate" := "3-4 sentences with descriptive language",
    "advanced" := "3-5 sentences with rich vocabulary"
  ]
  const DEFAULT_SENTENCE_STRUCTURE: string := "2-3 simple sentences"

  const VOCABULARY_GUIDE: map<string, string> := map[
    "pre-reader" := "Use only very simple words. Focus on colors, shapes, and basic actions.",
    "early-reader" := "Use common sight words and simple vocabulary.",
    "beginner" := "Use age-appropriate vocabulary with context clues.",
    "intermediate" := "Include some challenging words with context.",
    "advanced" := "Use rich, varied vocabulary appropriate for the age."
  ]
  const DEFAULT_VOCABULARY_GUIDE: string := "Use age-appropriate vocabulary"

  const NEUTRAL_PRONOUNS: string := "they/them"
  /** What a template literal writes for the `undefined` an unlisted gender looks up. */
  const UNDEFINED_TEXT: string := "undefined"

  /** `READING_LEVELS.find(level => level.value === readingLevel)`: the index of the first
      level with that value, or `|levels|` when there is none. */
  function FindLevel(levels: seq<(string, string)>, readingLevel: Option<string>): (k: nat)
    ensures k <= |levels|
    ensures k < |levels| ==> readingLevel == Some(levels[k].0)
    ensures forall j :: 0 <= j < k ==> readingLevel != Some(levels[j].0)
  {
    if levels == [] then 0
    else if readingLevel == Some(levels[0].0) then 0
    else 1 + FindLevel(levels[1..], readingLevel)
  }

  /** The label of the profile's reading level, or that of `READING_LEVELS[2]`. */
  function ReadingLevelLabel(readingLevel: Option<string>): (text: string)
    ensures (forall j :: 0 <= j < |READING_LEVELS| ==> readingLevel != Some(READING_LEVELS[j].0)) ==>
      text == READING_LEVELS[DEFAULT_LEVEL_INDEX].1
    ensures forall k :: 0 <= k < |READING_LEVELS| && readingLevel == Some(READING_LEVELS[k].0) ==>
      text == READING_LEVELS[k].1
  {
    var k := FindLevel(READING_LEVELS, readingLevel);
    if k < |READING_LEVELS| then READING_LEVELS[k].1 else READING_LEVELS[DEFAULT_LEVEL_INDEX].1
  }

  /** `{ … }[key] || fallback`: the table's entry for the key when it has a non-empty one. */
  function GuideFor(table: map<string, string>, key: Option<string>, fallback: string): (g: string)
    ensures key.Some? && key.value in table && table[key.value] != "" ==> g == table[key.value]
    ensures key.None? || key.value !in table ==> g == fallback
  {
    if key.Some? && key.value in table && table[key.value] != "" then table[key.value] else fallback
  }

  /** The level's values are exactly the guide tables' keys. */
  lemma LevelsAreGuideKeys(levels: seq<(string, string)>, sentences: map<string, string>, vocabulary: map<string, string>)
    requires levels == READING_LEVELS && sentences == SENTENCE_STRUCTURE && vocabulary == VOCABULARY_GUIDE
    ensures forall key :: key in sentences <==> key in vocabulary
    ensures forall j :: 0 <= j < |levels| ==> levels[j].0 in sentences
  {
  }

  /** An unknown or missing reading level falls back in all three places: the label is
      that of the third level, and both guides take their defaults. */
  lemma UnknownLevelDefaults(readingLevel: Option<string>)
    requires readingLevel.Some? ==> readingLevel.value !in SENTENCE_STRUCTURE
    ensures ReadingLevelLabel(readingLevel) == READING_LEVELS[DEFAULT_LEVEL_INDEX].1
    ensures GuideFor(SENTENCE_STRUCTURE, readingLevel, DEFAULT_SENTENCE_STRUCTURE) == DEFAULT_SENTENCE_STRUCTURE
    ensures GuideFor(VOCABULARY_GUIDE, readingLevel, DEFAULT_VOCABULARY_GUIDE) == DEFAULT_VOCABULARY_GUIDE
  {
    LevelsAreGuideKeys(READING_LEVELS, SENTENCE_STRUCTURE, VOCABULARY_GUIDE);
    forall j | 0 <= j < |READING_LEVELS|
      ensures readingLevel != Some(READING_LEVELS[j].0)
    {
      assert READING_LEVELS[j].0 in SENTENCE_STRUCTURE;
    }
  }

  /** `interests.slice(0, 2).join(' and ')` */
  function PrimaryInterests(interests: seq<string>): (s: string)
    ensures |interests| == 0 ==> s == ""
    ensures |interests| == 1 ==> s == interests[0]
    ensures |interests| >= 2 ==> s == interests[0] + " and " + interests[1]
  {
    if |interests| < 2 then Join(interests, " and ")
    else
      var first := interests[..2];
      assert first[1..] == [interests[1]] && Join(first[1..], " and ") == interests[1];
      Join(first, " and ")
  }

  /** The interests, then the free-form interests when they are non-empty. */
  function AllInterests(interests: seq<string>, freeForm: Option<string>): (all: seq<string>)
    ensures IsSet(freeForm) ==> all == interests + [freeForm.value]
    ensures !IsSet(freeForm) ==> all == interests
  {
    if IsSet(freeForm) then interests + [freeForm.value] else interests
  }

  /** The pronouns for a gender. A non-empty gender outside the table looks up `undefined`,
      which the template writes as that word. */
  function Pronouns(gender: Option<string>): (p: string)
    ensures !IsSet(gender) ==> p == NEUTRAL_PRONOUNS
    ensures gender == Some("boy") ==> p == "he/him"
    ensures gender == Some("girl") ==> p == "she/her"
    ensures gender == Some("other") ==> p == NEUTRAL_PRONOUNS
    ensures IsSet(gender) && gender.value !in {"boy", "girl", "other"} ==> p == UNDEFINED_TEXT
  {
    if !IsSet(gender) then NEUTRAL_PRONOUNS
    else if gender.value == "boy" then "he/him"
    else if gender.value == "girl" then "she/her"
    else if gender.value == "other" then NEUTRAL_PRONOUNS
    else UNDEFINED_TEXT
  }

  /** `profile.gender || 'child'` */
  function GenderOrChild(gender: Option<string>): (g: string)
    ensures IsSet(gender) ==> g == gender.value
    ensures !IsSet(gender) ==> g == "child"
  {
    if IsSet(gender) then gender.value else "child"
  }

  /** The plain prompt: the same requirement lines and layout as the story route, with the
      age written as a number and no newline after the last line. */
  function DefaultStoryPrompt(character: string, genre: string, age: int): string {
    JoinLines(StoryRoute.PromptHeader(StoryRoute.StoryRequest(character, genre, IntToString(age)))
              + StoryRoute.FormatBlock())
  }

  /** The profile lines and requirements of the personalised prompt. */
  function PersonalHeader(character: string, genre: string, p: ChildProfiles.ChildProfile): (lines: seq<string>)
    ensures |lines| > 0
  {
    var name := p.name;
    var primary := PrimaryInterests(p.interests);
    var pronouns := Pronouns(p.gender);
    [ "",
      "You are a children's book author creating a personalized story for " + name + ", age " + IntToString(p.age) + ".",
      "",
      "CHILD PROFILE:",
      "- Name: " + name,
      "- Age: " + IntToString(p.age) + " years old",
      "- Reading Level: " + ReadingLevelLabel(p.readingLevel),
      "- Pronouns: " + pronouns,
      "- Primary Interests: " + primary,
      "- All Interests: " + Join(AllInterests(p.interests, p.freeFormInterests), ", "),
      "",
      "STORY REQUIREMENTS:",
      "- Make " + name + " the main character of the story",
      "- Main character type: " + character + " (but named " + name + ")",
      "- Setting: " + genre,
      "- Incorporate elements from their interests, especially " + primary,
      "- Each page: " + GuideFor(SENTENCE_STRUCTURE, p.readingLevel, DEFAULT_SENTENCE_STRUCTURE),
      "- " + GuideFor(VOCABULARY_GUIDE, p.readingLevel, DEFAULT_VOCABULARY_GUIDE),
      "- Include a gentle moral that relates to their interests",
      "- Use " + pronouns + " pronouns for " + name,
      "",
      "IMPORTANT: The story should feel personalized for " + name
        + ", incorporating their specific interests into the plot, not just mentioning them.",
      "",
      "Format your response EXACTLY like this:" ]
  }

  function PersonalTitle(name: string): string {
    name + "'s [adventure name]"
  }

  function PersonalPages(name: string): (pages: seq<string>)
    ensures |pages| == 6
  {
    [ "[story text with " + name + " as main character]",
      "[story text]", "[story text]", "[story text]", "[story text]",
      "[story text with moral/lesson]" ]
  }

  /** The image lines; the first uses the `age` argument, not the profile's age. */
  function PersonalImages(name: string, age: int, gender: string): (images: seq<string>)
    ensures |images| == 6
  {
    [ "[visual description showing " + name + " as a " + IntToString(age) + "-year-old " + gender + "]",
      "[visual description incorporating their interests]",
      "[visual description]", "[visual description]", "[visual description]",
      "[visual description with happy ending]" ]
  }

  /** The layout the personalised prompt asks for. */
  function PersonalBlock(name: string, age: int, gender: string): seq<string> {
    FormatResponse(PersonalTitle(name), PersonalPages(name), PersonalImages(name, age, gender))
  }

  /** `generatePersonalizedStoryPrompt` */
  function PersonalizedStoryPrompt(character: string, genre: string, age: int,
                                   profile: Option<ChildProfiles.ChildProfile>): (prompt: string)
    ensures profile.None? ==> prompt == DefaultStoryPrompt(character, genre, age)
  {
    match profile
    case None => DefaultStoryPrompt(character, genre, age)
    case Some(p) =>
      JoinLines(PersonalHeader(character, genre, p) + PersonalBlock(p.name, age, GenderOrChild(p.gender)))
  }

  /** Without a profile the prompt is the story route's prompt for the same request, less
      its final newline. */
  lemma DefaultPromptIsStoryRoutePrompt(character: string, genre: string, age: int)
    ensures PersonalizedStoryPrompt(character, genre, age, None) + "\n"
         == StoryRoute.StoryPrompt(StoryRoute.StoryRequest(character, genre, IntToString(age)))
  {
    var r := StoryRoute.StoryRequest(character, genre, IntToString(age));
    var ls := StoryRoute.PromptHeader(r) + StoryRoute.FormatBlock();
    JoinAppend(ls, [""], "\n");
    assert JoinLines([""]) == "";
  }

  /** The personalised prompt ends with a layout of six pages and six images under a
      title that starts with the child's name. */
  lemma PersonalizedPromptLayout(character: string, genre: string, age: int, p: ChildProfiles.ChildProfile)
    ensures var gender := GenderOrChild(p.gender);
      && PersonalizedStoryPrompt(character, genre, age, Some(p))
         == JoinLines(PersonalHeader(character, genre, p)) + "\n" + JoinLines(PersonalBlock(p.name, age, gender))
      && PersonalBlock(p.name, age, gender)
         == FormatResponse(PersonalTitle(p.name), PersonalPages(p.name), PersonalImages(p.name, age, gender))
      && StartsWith(PersonalTitle(p.name), p.name + "'s")
      && |PersonalPages(p.name)| == 6 && |PersonalImages(p.name, age, gender)| == 6
  {
    var gender := GenderOrChild(p.gender);
    var block := PersonalBlock(p.name, age, gender);
    JoinLinesSplit(PersonalHeader(character, genre, p), block);
    TitleStartsWithName(p.name);
  }

  lemma JoinLinesSplit(header: seq<string>, block: seq<string>)
    requires |header| > 0 && |block| > 0
    ensures JoinLines(header + block) == JoinLines(header) + "\n" + JoinLines(block)
  {
    JoinAppend(header, block, "\n");
  }

  lemma TitleStartsWithName(name: string)
    ensures StartsWith(PersonalTitle(name), name + "'s")
  {
    assert PersonalTitle(name)[..|name + "'s"|] == name + "'s";
  }

  const ILLUSTRATION_PREFIX: string := "Children's book illustration: "
  const STYLE_SUFFIX: string := " style, child-friendly, age-appropriate for "

  /** The drawing style by age. */
  function ImageStyle(age: int): (s: string)
    ensures age <= 5 ==> s == "simple, bright cartoon"
    ensures age > 5 ==> s == "detailed cartoon"
  {
    if age <= 5 then "simple, bright cartoon" else "detailed cartoon"
  }

  /** `${age}-year-old ${gender}`, with `child` for a missing gender. */
  function GenderDescription(p: ChildProfiles.ChildProfile): string {
    IntToString(p.age) + "-year-old " + GenderOrChild(p.gender)
  }

  /** The three case-insensitive replacements, in order. */
  function Personalize(base: string, p: ChildProfiles.ChildProfile): (r: string)
    ensures (!ContainsIgnoringCase(base, "main character") && !ContainsIgnoringCase(base, "the character")
             && !ContainsIgnoringCase(base, "[character]")) ==> r == base
  {
    var s1 := ReplaceAllIgnoringCase(base, "main character", p.name + ", a " + GenderDescription(p));
    var s2 := ReplaceAllIgnoringCase(s1, "the character", p.name);
    ReplaceAllIgnoringCase(s2, "[character]", p.name)
  }

  /** A base that mentions neither `main character` nor `the character` has its first
      `[character]`, in any case, replaced by the child's name, and the scan goes on after it. */
  lemma BracketMentionBecomesName(base: string, p: ChildProfiles.ChildProfile, i: nat)
    requires !ContainsIgnoringCase(base, "main character") && !ContainsIgnoringCase(base, "the character")
    requires i <= |base|
    requires forall j :: 0 <= j < i ==> !StartsWithIgnoringCase(base[j..], "[character]")
    requires StartsWithIgnoringCase(base[i..], "[character]")
    ensures Personalize(base, p)
         == base[..i] + p.name + ReplaceAllIgnoringCase(base[i + |"[character]"|..], "[character]", p.name)
  {
    ReplaceFirstMatch(base, "[character]", p.name, i);
  }

  /** The mention of the first interest, when there is one. */
  function InterestElements(interests: seq<string>): (e: string)
    ensures |interests| > 0 ==> e == ", incorporating elements of " + interests[0]
    ensures |interests| == 0 ==> e == ""
  {
    if |interests| > 0 then ", incorporating elements of " + interests[0] else ""
  }

  /** The personalised text followed by the interest mention. */
  function ImageText(base: string, p: ChildProfiles.ChildProfile): string {
    Personalize(base, p) + InterestElements(p.interests)
  }

  /** The style and age that close the image prompt. */
  function ImageTail(age: int): string {
    ", " + ImageStyle(age) + STYLE_SUFFIX + IntToString(age) + " year old"
  }

  /** `generatePersonalizedImagePrompt` */
  function PersonalizedImagePrompt(base: string, profile: Option<ChildProfiles.ChildProfile>): (r: string)
    ensures profile.None? ==> r == base
    ensures profile.Some? ==> StartsWith(r, ILLUSTRATION_PREFIX)
  {
    match profile
    case None => base
    case Some(p) =>
      var r := ILLUSTRATION_PREFIX + (ImageText(base, p) + ImageTail(p.age));
      assert r[..|ILLUSTRATION_PREFIX|] == ILLUSTRATION_PREFIX;
      r
  }

  lemma ThreeParts(a: string, b: string, c: string)
    ensures (a + (b + c))[|a|..][..|b|] == b
    ensures (a + (b + c))[|a| + |b|..] == c
  {
    assert (a + (b + c))[|a|..] == b + c;
  }

  /** With a profile, the prompt is the prefix, the personalised text with the interest
      mention, and the age-dependent style, in that order. */
  lemma ImagePromptParts(base: string, p: ChildProfiles.ChildProfile)
    ensures var r := PersonalizedImagePrompt(base, Some(p));
      var text := ImageText(base, p);
      && r[|ILLUSTRATION_PREFIX|..][..|text|] == text
      && r[|ILLUSTRATION_PREFIX| + |text|..] == ImageTail(p.age)
  {
    ThreeParts(ILLUSTRATION_PREFIX, ImageText(base, p), ImageTail(p.age));
  }

  /** A base prompt that never names the character is only wrapped, not rewritten. */
  lemma NoMentionOnlyWrapped(base: string, p: ChildProfiles.ChildProfile)
    requires !ContainsIgnoringCase(base, "main character") && !ContainsIgnoringCase(base, "the character")
    requires !ContainsIgnoringCase(base, "[character]")
    ensures var r := PersonalizedImagePrompt(base, Some(p));
      r[|ILLUSTRATION_PREFIX|..][..|base|] == base
  {
    var e := InterestElements(p.interests);
    assert ImageText(base, p) == base + e;
    MiddleStart(ILLUSTRATION_PREFIX, base, e, ImageTail(p.age));
  }

  lemma MiddleStart(a: string, b: string, e: string, c: string)
    ensures (a + ((b + e) + c))[|a|..][..|b|] == b
  {
    assert (a + ((b + e) + c))[|a|..] == b + (e + c);
  }
}
