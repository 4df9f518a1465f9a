/** A fixed look for the child of a profile, so that every illustration of a story can
    describe the same character: hair follows the gender, clothing follows the first
    interest, and two prompt templates spell the look out. */
module CharacterConsistency {
  import opened Wrappers
  import opened Strings
  import ChildProfiles
  import Seqs

  datatype Clothing = Clothing(top: string, bottom: string, shoes: string, accessories: string)

  datatype Appearance = Appearance(
    name: string,
    age: int,
    gender: string,
    skinTone: string,
    hairColor: string,
    hairStyle: string,
    eyeColor: string,
    clothing: Clothing,
    distinctiveFeatures: string)

  const SKIN_TONE: string := "light peach skin"
  const EYE_COLOR: string := "warm brown eyes"
  const DEFAULT_GENDER: string := "child"

  /** The outfits, keyed by interest, in the order the loop visits them. */
  const CLOTHING_TABLE: seq<(string, Clothing)> := [
    ("Space & Astronomy", Clothing("navy blue t-shirt with white star pattern", "dark blue jeans",
                                   "white sneakers with blue laces", "small telescope pendant necklace")),
    ("Ocean Life & Sea Creatures", Clothing("turquoise t-shirt with wave design", "light blue shorts",
                                            "blue and white sandals", "seashell bracelet")),
    ("Animals", Clothing("green safari vest over white t-shirt", "khaki shorts",
                         "brown hiking boots", "small binoculars on a strap")),
    ("Sports", Clothing("red athletic jersey with number 7", "black athletic shorts",
                        "red and white sports shoes", "sweatband on wrist")),
    ("Building", Clothing("yellow construction vest over orange t-shirt", "blue denim overalls",
                          "sturdy brown work boots", "toy tool belt")),
    ("Superheroes", Clothing("red t-shirt with lightning bolt design", "blue jeans",
                             "red high-top sneakers", "small red cape")),
    ("Music", Clothing("purple t-shirt with colorful music notes", "black leggings",
                       "sparkly silver shoes", "headphones around neck")),
    ("Science", Clothing("white lab coat over light blue shirt", "dark gray pants",
                         "black and white shoes", "toy safety goggles on head"))
  ]

  const DEFAULT_CLOTHING: Clothing :=
    Clothing("bright yellow t-shirt with rainbow design", "comfortable blue jeans", "colorful sneakers", "friendship bracelet")

  /** Hair colour and style by gender. */
  function Hair(gender: Option<string>): (h: (string, string))
    ensures gender == Some("boy") ==> h == ("dark brown", "short neat hair")
    ensures gender == Some("girl") ==> h == ("medium brown", "shoulder-length hair with bangs")
    ensures gender != Some("boy") && gender != Some("girl") ==> h == ("auburn", "medium wavy hair")
  {
    if gender == Some("boy") then ("dark brown", "short neat hair")
    else if gender == Some("girl") then ("medium brown", "shoulder-length hair with bangs")
    else ("auburn", "medium wavy hair")
  }

  /** `interests[0] || ''` */
  function PrimaryInterest(interests: seq<string>): (s: string)
    ensures |interests| > 0 ==> s == interests[0]
    ensures |interests| == 0 ==> s == ""
  {
    if |interests| > 0 then interests[0] else ""
  }

  /** An entry matches when the first word of its lower-cased key occurs in the lower-cased
      interest. */
  predicate KeyMatches(interest: string, key: string) {
    Contains(ToLower(interest), FirstWord(ToLower(key)))
  }

  /** Entry `k` matches and no earlier one does. */
  predicate IsFirstMatch(interest: string, table: seq<(string, Clothing)>, k: int) {
    && 0 <= k < |table|
    && KeyMatches(interest, table[k].0)
    && forall j :: 0 <= j < k ==> !KeyMatches(interest, table[j].0)
  }

  /** The index of the first matching entry; `|table|` when none matches. */
  function FirstMatching(interest: string, table: seq<(string, Clothing)>): (k: nat)
    ensures k <= |table|
    ensures k < |table| ==> KeyMatches(interest, table[k].0)
    ensures forall j :: 0 <= j < k ==> !KeyMatches(interest, table[j].0)
  {
    if table == [] then 0
    else if KeyMatches(interest, table[0].0) then 0
    else 1 + FirstMatching(interest, table[1..])
  }

  /** `getConsistentClothing` over a given table: the outfit of the first matching entry, or
      the default outfit. */
  function ClothingFrom(interest: string, table: seq<(string, Clothing)>): (c: Clothing)
    ensures (forall j :: 0 <= j < |table| ==> !KeyMatches(interest, table[j].0)) ==> c == DEFAULT_CLOTHING
    ensures forall k :: IsFirstMatch(interest, table, k) ==> c == table[k].1
  {
    var k := FirstMatching(interest, table);
    if k < |table| then table[k].1 else DEFAULT_CLOTHING
  }

  function ClothingFor(interest: string): Clothing {
    ClothingFrom(interest, CLOTHING_TABLE)
  }

  /** `generateConsistentCharacter` */
  function ConsistentCharacter(profile: ChildProfiles.ChildProfile): (a: Appearance)
    ensures a.name == profile.name && a.age == profile.age
    ensures IsSet(profile.gender) ==> a.gender == profile.gender.value
    ensures !IsSet(profile.gender) ==> a.gender == DEFAULT_GENDER
    ensures a.skinTone == SKIN_TONE && a.eyeColor == EYE_COLOR
    ensures (a.hairColor, a.hairStyle) == Hair(profile.gender)
    ensures a.clothing == ClothingFor(PrimaryInterest(profile.interests))
  {
    var hair := Hair(profile.gender);
    Appearance(
      profile.name, profile.age,
      if IsSet(profile.gender) then profile.gender.value else DEFAULT_GENDER,
      SKIN_TONE, hair.0, hair.1, EYE_COLOR,
      ClothingFor(PrimaryInterest(profile.interests)),
      "Always smiling, " + IntToString(profile.age) + " years old appearance")
  }

  /** The appearance depends on the name, age, gender and first interest only: profiles
      that agree on those look the same. */
  lemma SameLookForSameTraits(p: ChildProfiles.ChildProfile, q: ChildProfiles.ChildProfile)
    requires p.name == q.name && p.age == q.age && p.gender == q.gender
    requires PrimaryInterest(p.interests) == PrimaryInterest(q.interests)
    ensures ConsistentCharacter(p) == ConsistentCharacter(q)
  {
  }

  lemma LowerCharIdempotent(c: char)
    ensures LowerChar(LowerChar(c)) == LowerChar(c)
  {
  }

  lemma ToLowerIdempotent(s: string)
    ensures ToLower(ToLower(s)) == ToLower(s)
  {
    forall i | 0 <= i < |s|
      ensures ToLower(ToLower(s))[i] == ToLower(s)[i]
    {
      LowerCharIdempotent(s[i]);
    }
  }

  /** The outfit ignores the case of the interest. */
  lemma {:induction false} ClothingIgnoresCase(interest: string, table: seq<(string, Clothing)>)
    ensures ClothingFrom(interest, table) == ClothingFrom(ToLower(interest), table)
  {
    ToLowerIdempotent(interest);
    FirstMatchingIgnoresCase(interest, table);
  }

  lemma {:induction false} FirstMatchingIgnoresCase(interest: string, table: seq<(string, Clothing)>)
    ensures FirstMatching(interest, table) == FirstMatching(ToLower(interest), table)
  {
    ToLowerIdempotent(interest);
    if table != [] {
      FirstMatchingIgnoresCase(interest, table[1..]);
    }
  }

  /** No interest gives the default outfit whenever no key begins with a space. */
  lemma NoInterestDefault(table: seq<(string, Clothing)>)
    requires forall j :: 0 <= j < |table| ==> |table[j].0| > 0 && table[j].0[0] != ' '
    ensures ClothingFrom("", table) == DEFAULT_CLOTHING
  {
    forall j | 0 <= j < |table|
      ensures !KeyMatches("", table[j].0)
    {
      var w := FirstWord(ToLower(table[j].0));
      assert |w| > 0;
    }
  }

  /** Every key of the outfit table begins with a letter. */
  lemma ClothingKeysStartWithLetter(table: seq<(string, Clothing)>)
    requires table == CLOTHING_TABLE
    ensures |table| == 8
    ensures forall j :: 0 <= j < |table| ==> |table[j].0| > 0 && table[j].0[0] != ' '
  {
  }

  /** A profile without interests wears the default outfit. */
  lemma NoInterestsDefaultOutfit(profile: ChildProfiles.ChildProfile)
    requires profile.interests == []
    ensures ConsistentCharacter(profile).clothing == DEFAULT_CLOTHING
  {
    ClothingKeysStartWithLetter(CLOTHING_TABLE);
    NoInterestDefault(CLOTHING_TABLE);
  }

  const DETAIL_CLOTHING: string := "EXACT CLOTHING (NEVER CHANGE): "
  const DETAIL_CRITICAL: string :=
    "CRITICAL: This EXACT appearance must be identical in every single image - same face, same hair, same clothes, same colors."

  /** The first words of the detailed prompt: who the character is. */
  function DetailOpening(c: Appearance): string {
    c.name + " is a " + IntToString(c.age) + "-year-old " + c.gender + " with "
  }

  function DetailLooks(c: Appearance): string {
    c.skinTone + ", " + c.hairColor + " " + c.hairStyle + ", and " + c.eyeColor + ". \n"
      + DETAIL_CLOTHING + c.name + " wears "
  }

  /** The four clothing items, comma separated. */
  function ClothingList(cl: Clothing): string {
    cl.top + ", " + cl.bottom + ", " + cl.shoes + ", and " + cl.accessories
  }

  function DetailTail(c: Appearance): string {
    ".\n" + c.distinctiveFeatures + ". \n" + DETAIL_CRITICAL
  }

  /** `createDetailedCharacterPrompt`: four lines describing the look. */
  function DetailedPrompt(c: Appearance): (r: string)
    ensures StartsWith(r, DetailOpening(c))
    ensures Contains(r, ClothingList(c.clothing))
  {
    var head := DetailOpening(c) + DetailLooks(c);
    assert StartsWith(ClothingList(c.clothing), ClothingList(c.clothing));
    ContainsWithin(head, ClothingList(c.clothing), DetailTail(c), ClothingList(c.clothing));
    StartsWithLeft(DetailOpening(c), DetailLooks(c), DetailOpening(c));
    StartsWithLeft(head, ClothingList(c.clothing), DetailOpening(c));
    StartsWithLeft(head + ClothingList(c.clothing), DetailTail(c), DetailOpening(c));
    head + ClothingList(c.clothing) + DetailTail(c)
  }

  lemma ClothingListMentions(cl: Clothing)
    ensures Contains(ClothingList(cl), cl.top)
    ensures Contains(ClothingList(cl), cl.bottom)
    ensures Contains(ClothingList(cl), cl.shoes)
    ensures Contains(ClothingList(cl), cl.accessories)
  {
    var a := cl.top + ", ";
    var b := a + cl.bottom + ", ";
    var c := b + cl.shoes + ", and ";
    ContainsLeft(cl.top, ", " + cl.bottom, cl.top);
    ContainsLeft(cl.top + ", " + cl.bottom, ", ", cl.top);
    ContainsLeft(b, cl.shoes, cl.top);
    ContainsLeft(b + cl.shoes, ", and ", cl.top);
    ContainsLeft(c, cl.accessories, cl.top);
    assert cl.top + ", " + cl.bottom == cl.top + (", " + cl.bottom);
    ContainsRight(a, cl.bottom, cl.bottom);
    ContainsLeft(a + cl.bottom, ", ", cl.bottom);
    ContainsLeft(b, cl.shoes, cl.bottom);
    ContainsLeft(b + cl.shoes, ", and ", cl.bottom);
    ContainsLeft(c, cl.accessories, cl.bottom);
    ContainsRight(b, cl.shoes, cl.shoes);
    ContainsLeft(b + cl.shoes, ", and ", cl.shoes);
    ContainsLeft(c, cl.accessories, cl.shoes);
    ContainsRight(c, cl.accessories, cl.accessories);
  }

  /** The detailed prompt opens with the name, age and gender and mentions all four
      clothing items. */
  lemma DetailedPromptMentions(c: Appearance)
    ensures StartsWith(DetailedPrompt(c), c.name + " is a " + IntToString(c.age) + "-year-old " + c.gender + " with ")
    ensures Contains(DetailedPrompt(c), c.clothing.top)
    ensures Contains(DetailedPrompt(c), c.clothing.bottom)
    ensures Contains(DetailedPrompt(c), c.clothing.shoes)
    ensures Contains(DetailedPrompt(c), c.clothing.accessories)
  {
    var head := DetailOpening(c) + DetailLooks(c);
    var list := ClothingList(c.clothing);
    StartsWithLeft(DetailOpening(c), DetailLooks(c), DetailOpening(c));
    StartsWithLeft(head, list, DetailOpening(c));
    StartsWithLeft(head + list, DetailTail(c), DetailOpening(c));
    ClothingListMentions(c.clothing);
    ContainsWithin(head, list, DetailTail(c), c.clothing.top);
    ContainsWithin(head, list, DetailTail(c), c.clothing.bottom);
    ContainsWithin(head, list, DetailTail(c), c.clothing.shoes);
    ContainsWithin(head, list, DetailTail(c), c.clothing.accessories);
  }

  const APPEARANCE_HEADER: string := "\n\nCHARACTER APPEARANCE (MUST BE EXACT):\n"

  /** The six rules that close the consistency prompt. */
  function ConsistencyRules(c: Appearance): string {
    "\n\nCONSISTENCY RULES:\n1. " + c.name + "'s face must look EXACTLY the same as in previous images\n2. Hair color ("
      + c.hairColor + ") and style (" + c.hairStyle + ") must be IDENTICAL\n3. Clothing must be EXACTLY: "
      + c.clothing.top + ", " + c.clothing.bottom + ", " + c.clothing.shoes
      + "\n4. Keep the same art style throughout all images\n5. " + c.name
      + " should appear as the same person, not a different child\n6. Maintain consistent proportions and features"
  }

  /** `createImageConsistencyPrompt`: the scene, the detailed prompt, then six rules. */
  function ImageConsistencyPrompt(c: Appearance, scene: string): (r: string)
    ensures StartsWith(r, scene)
    ensures Contains(r, DetailedPrompt(c))
  {
    PiecesLayout(scene, APPEARANCE_HEADER, DetailedPrompt(c), ConsistencyRules(c));
    scene + APPEARANCE_HEADER + DetailedPrompt(c) + ConsistencyRules(c)
  }

  /** Four pieces laid end to end can each be read back at their offsets. */
  lemma PiecesLayout(scene: string, header: string, d: string, rules: string)
    ensures var r := scene + header + d + rules;
      && StartsWith(r, scene)
      && r[|scene|..][..|header|] == header
      && StartsWith(r[|scene| + |header|..], d)
      && r[|scene| + |header| + |d|..] == rules
      && Contains(r, d)
  {
    var tail := header + (d + rules);
    Seqs.Assoc(scene, header, d);
    Seqs.Assoc(scene + header, d, rules);
    Seqs.Assoc(scene, header, d + rules);
    Seqs.Assoc(scene, header + d, rules);
    Seqs.Assoc(header, d, rules);
    Seqs.AppendParts(scene, tail);
    Seqs.AppendParts(header, d + rules);
    Seqs.AppendParts(scene + header, d + rules);
    Seqs.AppendParts(scene + header + d, rules);
    Seqs.AppendParts(d, rules);
    ContainsWithin(scene + header, d, rules, d);
  }

  /** The consistency prompt begins with the scene, carries the detailed prompt right after
      the header and ends with the rules, so each piece can be read back. */
  lemma ImageConsistencyPromptLayout(c: Appearance, scene: string)
    ensures var r := ImageConsistencyPrompt(c, scene);
      && StartsWith(r, scene)
      && r[|scene|..][..|APPEARANCE_HEADER|] == APPEARANCE_HEADER
      && StartsWith(r[|scene| + |APPEARANCE_HEADER|..], DetailedPrompt(c))
      && r[|scene| + |APPEARANCE_HEADER| + |DetailedPrompt(c)|..] == ConsistencyRules(c)
      && Contains(r, DetailedPrompt(c))
  {
    PiecesLayout(scene, APPEARANCE_HEADER, DetailedPrompt(c), ConsistencyRules(c));
  }
}
