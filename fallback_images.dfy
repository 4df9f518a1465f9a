/** The SVG picture the app shows when no generated illustration is available
    (`generateFallbackImage`): a palette picked by page index, the character's glyph,
    a scene picked by page index, written into an SVG document that is returned as a
    base64 `data:` URI (RFC 2397, with the base64 of section 4 of RFC 4648). */
module FallbackImages {
  import opened Wrappers
  import opened Strings
  import Base64
  import Utf8

  datatype Colors = Colors(bg: string, fg: string, accent: string)
  datatype Scene = Scene(icon: string, desc: string)

  const SVG_DATA_URI_PREFIX: string := "data:image/svg+xml;base64,"
  const DEFAULT_CHARACTER: string := "hero"
  const DEFAULT_GLYPH: string := "\U{2B50}"

  const COLORS: seq<Colors> := [
    Colors("#FFE5E5", "#FF6B6B", "#4ECDC4"), // coral and teal
    Colors("#E5F3FF", "#4ECDC4", "#FFE66D"), // blue and yellow
    Colors("#F0E5FF", "#9B59B6", "#3498DB"), // purple and blue
    Colors("#FFE5CC", "#FF8C42", "#6C5CE7"), // orange and purple
    Colors("#E5FFE5", "#27AE60", "#E74C3C")  // green and red
  ]

  const CHARACTER_GLYPHS: map<string, string> := map[
    "princess" := "\U{1F478}",
    "knight" := "\U{2694}\U{FE0F}",
    "dragon" := "\U{1F432}",
    "wizard" := "\U{1F9D9}\U{200D}\U{2642}\U{FE0F}",
    "cat" := "\U{1F431}",
    "mouse" := "\U{1F42D}",
    "hero" := "\U{1F9B8}"
  ]

  const SCENES: seq<Scene> := [
    Scene("\U{1F3F0}", "Adventure Begins"),
    Scene("\U{1F31F}", "Magical Journey"),
    Scene("\U{1F308}", "Happy Ending")
  ]

  /** The palette of a page: the palettes are used in turn. */
  function PaletteOf(index: nat): (c: Colors)
    ensures c in COLORS
    ensures c == COLORS[index % 5]
  {
    COLORS[index % |COLORS|]
  }

  /** The scene of a page: beginning, journey and ending in turn. */
  function SceneOf(index: nat): (s: Scene)
    ensures s in SCENES
    ensures index % 3 == 0 ==> s.desc == "Adventure Begins"
    ensures index % 3 == 1 ==> s.desc == "Magical Journey"
    ensures index % 3 == 2 ==> s.desc == "Happy Ending"
  {
    SCENES[index % |SCENES|]
  }

  /** The glyph drawn for a character (`hero` when none is given); a star for one the
      table does not know. */
  function GlyphOf(character: Option<string>): (g: string)
    ensures character.None? ==> g == CHARACTER_GLYPHS[DEFAULT_CHARACTER]
    ensures character.Some? && character.value in CHARACTER_GLYPHS ==> g == CHARACTER_GLYPHS[character.value]
    ensures character.Some? && character.value !in CHARACTER_GLYPHS ==> g == DEFAULT_GLYPH
  {
    var name := character.GetOr(DEFAULT_CHARACTER);
    if name in CHARACTER_GLYPHS && CHARACTER_GLYPHS[name] != "" then CHARACTER_GLYPHS[name] else DEFAULT_GLYPH
  }

  /** The SVG document, as the template literal lays it out. */
  function Svg(color: Colors, glyph: string, scene: Scene): string {
    "\n"
    + "    <svg width=\"512\" height=\"512\" viewBox=\"0 0 512 512\" xmlns=\"http://www.w3.org/2000/svg\">\n"
    + "      <defs>\n"
    + "        <linearGradient id=\"bg-gradient\" x1=\"0%\" y1=\"0%\" x2=\"100%\" y2=\"100%\">\n"
    + "          <stop offset=\"0%\" style=\"stop-color:" + color.bg + ";stop-opacity:1\" />\n"
    + "          <stop offset=\"100%\" style=\"stop-color:" + color.fg + ";stop-opacity:0.3\" />\n"
    + "        </linearGradient>\n"
    + "        <filter id=\"soft-shadow\">\n"
    + "          <feDropShadow dx=\"0\" dy=\"4\" stdDeviation=\"8\" flood-opacity=\"0.15\"/>\n"
    + "        </filter>\n"
    + "      </defs>\n"
    + "      \n"
    + "      <!-- Background -->\n"
    + "      <rect width=\"512\" height=\"512\" fill=\"url(#bg-gradient)\"/>\n"
    + "      \n"
    + "      <!-- Decorative circles -->\n"
    + "      <circle cx=\"50\" cy=\"50\" r=\"30\" fill=\"" + color.accent + "\" opacity=\"0.2\"/>\n"
    + "      <circle cx=\"462\" cy=\"462\" r=\"40\" fill=\"" + color.fg + "\" opacity=\"0.2\"/>\n"
    + "      <circle cx=\"450\" cy=\"80\" r=\"25\" fill=\"" + color.accent + "\" opacity=\"0.15\"/>\n"
    + "      <circle cx=\"80\" cy=\"450\" r=\"35\" fill=\"" + color.fg + "\" opacity=\"0.15\"/>\n"
    + "      \n"
    + "      <!-- Main content background -->\n"
    + "      <rect x=\"106\" y=\"156\" width=\"300\" height=\"200\" rx=\"20\" fill=\"white\" opacity=\"0.9\" filter=\"url(#soft-shadow)\"/>\n"
    + "      \n"
    + "      <!-- Character emoji -->\n"
    + "      <text x=\"256\" y=\"220\" font-family=\"Arial, sans-serif\" font-size=\"64\" text-anchor=\"middle\" fill=\"" + color.fg + "\">\n"
    + "        " + glyph + "\n"
    + "      </text>\n"
    + "      \n"
    + "      <!-- Scene icon -->\n"
    + "      <text x=\"256\" y=\"290\" font-family=\"Arial, sans-serif\" font-size=\"40\" text-anchor=\"middle\" fill=\"" + color.accent + "\">\n"
    + "        " + scene.icon + "\n"
    + "      </text>\n"
    + "      \n"
    + "      <!-- Description -->\n"
    + "      <text x=\"256\" y=\"330\" font-family=\"Arial, sans-serif\" font-size=\"18\" text-anchor=\"middle\" fill=\"" + color.fg + "\" font-weight=\"600\">\n"
    + "        " + scene.desc + "\n"
    + "      </text>\n"
    + "      \n"
    + "      <!-- Decorative stars -->\n"
    + "      <text x=\"150\" y=\"130\" font-family=\"Arial, sans-serif\" font-size=\"24\" fill=\"" + color.accent + "\" opacity=\"0.6\">\U{2728}</text>\n"
    + "      <text x=\"350\" y=\"130\" font-family=\"Arial, sans-serif\" font-size=\"24\" fill=\"" + color.accent + "\" opacity=\"0.6\">\U{2728}</text>\n"
    + "      <text x=\"150\" y=\"390\" font-family=\"Arial, sans-serif\" font-size=\"24\" fill=\"" + color.accent + "\" opacity=\"0.6\">\U{2B50}</text>\n"
    + "      <text x=\"350\" y=\"390\" font-family=\"Arial, sans-serif\" font-size=\"24\" fill=\"" + color.accent + "\" opacity=\"0.6\">\U{2B50}</text>\n"
    + "    </svg>\n"
    + "  "
  }

  /** The text after the SVG data URI prefix; empty for a text shorter than the prefix. */
  function Payload(uri: string): string {
    if |uri| < |SVG_DATA_URI_PREFIX| then "" else uri[|SVG_DATA_URI_PREFIX|..]
  }

  /** An SVG document as a base64 `data:` URI of its UTF-8 bytes. */
  function SvgDataUri(svg: string): (r: string)
    ensures StartsWith(r, SVG_DATA_URI_PREFIX)
    ensures Payload(r) == Base64.Encode(Utf8.Encode(svg))
  {
    SVG_DATA_URI_PREFIX + Base64.Encode(Utf8.Encode(svg))
  }

  /** The payload of an SVG data URI decodes back to the document it was made from. */
  lemma SvgDataUriDecodes(svg: string)
    ensures var payload := Base64.Decode(Payload(SvgDataUri(svg)));
      payload.Some? && Utf8.Decode(payload.value) == Some(svg)
  {
    Base64.DecodeEncode(Utf8.Encode(svg));
    Utf8.DecodeEncode(svg);
  }

  /** `generateFallbackImage(prompt, index, character)`; `prompt` is accepted and never read. */
  function FallbackImage(prompt: string, index: nat, character: Option<string>): (r: string)
    ensures StartsWith(r, SVG_DATA_URI_PREFIX)
  {
    SvgDataUri(Svg(PaletteOf(index), GlyphOf(character), SceneOf(index)))
  }

  /** The picture is the SVG of the page's palette, glyph and scene, recoverable from the URI. */
  lemma FallbackImageDecodes(prompt: string, index: nat, character: Option<string>)
    ensures var payload := Base64.Decode(Payload(FallbackImage(prompt, index, character)));
      payload.Some? && Utf8.Decode(payload.value) == Some(Svg(PaletteOf(index), GlyphOf(character), SceneOf(index)))
  {
    SvgDataUriDecodes(Svg(PaletteOf(index), GlyphOf(character), SceneOf(index)));
  }

  /** Palettes repeat every five pages and scenes every three, so pages fifteen apart look
      the same. */
  lemma {:induction false} PeriodFifteen(prompt: string, index: nat, character: Option<string>)
    ensures FallbackImage(prompt, index, character) == FallbackImage(prompt, index + 15, character)
  {
    SamePaletteAndScene(index, index + 15);
  }

  lemma SamePaletteAndScene(i: nat, j: nat)
    requires j == i + 15
    ensures PaletteOf(i) == PaletteOf(j) && SceneOf(i) == SceneOf(j)
  {
    assert j % 5 == i % 5;
    assert j % 3 == i % 3;
  }

  /** The prompt has no influence on the picture. */
  lemma PromptIgnored(p1: string, p2: string, index: nat, character: Option<string>)
    ensures FallbackImage(p1, index, character) == FallbackImage(p2, index, character)
  {
  }
}
