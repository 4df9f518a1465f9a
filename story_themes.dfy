/** The story themes: a fixed list of eight, a lookup by id, and the choice of one setting
    and one plot element for a prompt. The two random draws are parameters, each a number
    in [0, 1) as `Math.random()` returns. */
module StoryThemes {
  import opened Wrappers

  datatype StoryTheme = StoryTheme(
    id: string,
    name: string,
    emoji: string,
    description: string,
    settings: seq<string>,
    plotElements: seq<string>)

  datatype PromptElements = PromptElements(setting: string, plotElement: string)

  const STORY_THEMES: seq<StoryTheme> := [
    StoryTheme(
      "medieval", "Medieval Kingdom", "\U{1F3F0}",
      "Knights, castles, and royal adventures",
      ["castle throne room", "medieval marketplace", "enchanted forest", "dragon's lair", "tournament grounds"],
      ["royal quests", "dragon encounters", "knightly tournaments", "protecting the kingdom", "magical artifacts"]),
    StoryTheme(
      "space", "Space Adventure", "\U{1F680}",
      "Explore planets and meet alien friends",
      ["space station", "alien planets", "asteroid fields", "cosmic nebula", "moon base"],
      ["space exploration", "alien friendships", "cosmic mysteries", "saving planets", "discovering new worlds"]),
    StoryTheme(
      "ocean", "Ocean Depths", "\U{1F30A}",
      "Underwater kingdoms and sea creatures",
      ["coral reef palace", "sunken ship", "ocean trench", "mermaid city", "kelp forest"],
      ["underwater rescue", "finding treasures", "sea creature friends", "ocean mysteries", "protecting the reef"]),
    StoryTheme(
      "magical-forest", "Magical Forest", "\U{1F332}",
      "Enchanted woods full of wonder",
      ["fairy grove", "talking tree hollow", "crystal waterfall", "mushroom village", "ancient ruins"],
      ["forest magic", "helping woodland creatures", "finding magical items", "nature adventures", "fairy friendships"]),
    StoryTheme(
      "modern", "Modern City", "\U{1F3D9}\U{FE0F}",
      "Contemporary adventures in the city",
      ["city park", "science museum", "skyscraper rooftop", "subway tunnels", "tech laboratory"],
      ["urban adventures", "helping neighbors", "solving mysteries", "technology quests", "community projects"]),
    StoryTheme(
      "pirate", "Pirate Seas", "\U{1F3F4}\U{200D}\U{2620}\U{FE0F}",
      "Sailing adventures and treasure hunts",
      ["pirate ship deck", "treasure island", "hidden cove", "port town", "sea cave"],
      ["treasure hunts", "sea battles", "island exploration", "pirate friendships", "nautical navigation"]),
    StoryTheme(
      "prehistoric", "Dinosaur Era", "\U{1F995}",
      "Travel back to the time of dinosaurs",
      ["prehistoric jungle", "volcano valley", "tar pits", "dinosaur nests", "ancient caves"],
      ["dinosaur friendships", "prehistoric survival", "time travel", "fossil discoveries", "protecting eggs"]),
    StoryTheme(
      "arctic", "Arctic Adventure", "\U{1F427}",
      "Icy landscapes and polar friends",
      ["ice palace", "glacier caves", "northern lights sky", "penguin colony", "research station"],
      ["ice rescue missions", "polar bear friendships", "aurora mysteries", "warming hearts", "arctic exploration"])
  ]

  const DEFAULT_SETTING: string := "magical land"
  const DEFAULT_PLOT_ELEMENT: string := "adventure"

  /** Every theme has something to choose from. */
  predicate WellFormed(themes: seq<StoryTheme>) {
    forall k :: 0 <= k < |themes| ==> |themes[k].settings| > 0 && |themes[k].plotElements| > 0
  }

  /** The index of the first theme with that id; `|themes|` when there is none. */
  function FindTheme(themes: seq<StoryTheme>, id: string): (k: nat)
    ensures k <= |themes|
    ensures k < |themes| ==> themes[k].id == id
    ensures forall j :: 0 <= j < k ==> themes[j].id != id
  {
    if themes == [] then 0
    else if themes[0].id == id then 0
    else 1 + FindTheme(themes[1..], id)
  }

  /** `themes.find(theme => theme.id === id)` */
  function ThemeByIdIn(themes: seq<StoryTheme>, id: string): (r: Option<StoryTheme>)
    ensures r.Some? ==> r.value.id == id && r.value in themes
    ensures r.None? <==> forall k :: 0 <= k < |themes| ==> themes[k].id != id
  {
    var k := FindTheme(themes, id);
    if k < |themes| then Some(themes[k]) else None
  }

  /** `getThemeById` */
  function ThemeById(id: string): (r: Option<StoryTheme>)
    ensures r.Some? ==> r.value.id == id && r.value in STORY_THEMES
    ensures r.None? <==> forall k :: 0 <= k < |STORY_THEMES| ==> STORY_THEMES[k].id != id
  {
    ThemeByIdIn(STORY_THEMES, id)
  }

  /** With distinct ids, the theme found is the only one with that id. */
  lemma ThemeByIdUnique(themes: seq<StoryTheme>, id: string, k: nat)
    requires forall i, j :: 0 <= i < j < |themes| ==> themes[i].id != themes[j].id
    requires k < |themes| && themes[k].id == id
    ensures ThemeByIdIn(themes, id) == Some(themes[k])
  {
  }

  /** The table: eight themes with distinct ids, each with five settings and five plot
      elements. */
  lemma ThemesTable(themes: seq<StoryTheme>)
    requires themes == STORY_THEMES
    ensures |themes| == 8
    ensures forall k :: 0 <= k < |themes| ==> |themes[k].settings| == 5 && |themes[k].plotElements| == 5
    ensures WellFormed(themes)
  {
  }

  lemma ThemeIdsDistinct(themes: seq<StoryTheme>)
    requires themes == STORY_THEMES
    ensures forall i, j :: 0 <= i < j < |themes| ==> themes[i].id != themes[j].id
  {
  }

  /** `Math.floor(draw * n)` */
  function Pick(draw: real, n: nat): (i: nat)
    requires 0.0 <= draw < 1.0 && n > 0
    ensures i < n
  {
    assert 0.0 <= draw * n as real < n as real by {
      assert draw * n as real <= 1.0 * n as real;
      assert (1.0 - draw) * n as real > 0.0;
    }
    (draw * n as real).Floor
  }

  /** Every index can be drawn: the draw `i / n` picks index `i`. */
  lemma PickReachesEvery(i: nat, n: nat)
    requires i < n
    ensures 0.0 <= i as real / n as real < 1.0
    ensures Pick(i as real / n as real, n) == i
  {
    assert (i as real / n as real) * n as real == i as real;
  }

  /** `getThemePromptElements` over a given table. */
  function ThemePromptElementsIn(themes: seq<StoryTheme>, themeId: string, settingDraw: real, plotDraw: real): (e: PromptElements)
    requires WellFormed(themes)
    requires 0.0 <= settingDraw < 1.0 && 0.0 <= plotDraw < 1.0
    ensures ThemeByIdIn(themes, themeId).None? ==> e == PromptElements(DEFAULT_SETTING, DEFAULT_PLOT_ELEMENT)
    ensures ThemeByIdIn(themes, themeId).Some? ==>
      var theme := ThemeByIdIn(themes, themeId).value;
      e.setting in theme.settings && e.plotElement in theme.plotElements
  {
    match ThemeByIdIn(themes, themeId)
    case None => PromptElements(DEFAULT_SETTING, DEFAULT_PLOT_ELEMENT)
    case Some(theme) =>
      PromptElements(theme.settings[Pick(settingDraw, |theme.settings|)],
                     theme.plotElements[Pick(plotDraw, |theme.plotElements|)])
  }

  /** `getThemePromptElements` */
  function ThemePromptElements(themeId: string, settingDraw: real, plotDraw: real): (e: PromptElements)
    requires 0.0 <= settingDraw < 1.0 && 0.0 <= plotDraw < 1.0
    ensures ThemeById(themeId).None? ==> e == PromptElements(DEFAULT_SETTING, DEFAULT_PLOT_ELEMENT)
    ensures ThemeById(themeId).Some? ==>
      e.setting in ThemeById(themeId).value.settings && e.plotElement in ThemeById(themeId).value.plotElements
  {
    ThemesTable(STORY_THEMES);
    ThemePromptElementsIn(STORY_THEMES, themeId, settingDraw, plotDraw)
  }

  /** Every setting and plot element of a known theme can come out, whatever the other
      draw. */
  lemma EveryElementReachable(themes: seq<StoryTheme>, themeId: string, i: nat, j: nat)
    requires WellFormed(themes)
    requires ThemeByIdIn(themes, themeId).Some?
    requires i < |ThemeByIdIn(themes, themeId).value.settings| && j < |ThemeByIdIn(themes, themeId).value.plotElements|
    ensures var theme := ThemeByIdIn(themes, themeId).value;
      var si := i as real / |theme.settings| as real;
      var pj := j as real / |theme.plotElements| as real;
      && 0.0 <= si < 1.0 && 0.0 <= pj < 1.0
      && ThemePromptElementsIn(themes, themeId, si, pj) == PromptElements(theme.settings[i], theme.plotElements[j])
  {
    var theme := ThemeByIdIn(themes, themeId).value;
    PickReachesEvery(i, |theme.settings|);
    PickReachesEvery(j, |theme.plotElements|);
  }
}
