/** The detailed descriptions of the six story characters, and the two prompts built from
    them. The table's feature and clothing entries keep their declared order, which is
    the order the prompts list them in. */
module CharacterDetails {
  import opened Wrappers
  import opened Strings

  /** One character. `physicalFeatures` and `clothing` are the `(key, value)` entries of
      the source's records in declaration order; `emoji` holds the characters the source
      file spells it with. */
  datatype CharacterDetail = CharacterDetail(
    id: string,
    name: string,
    emoji: string,
    coreIdentity: string,
    physicalFeatures: seq<(string, string)>,
    clothing: seq<(string, string)>,
    equipment: Option<seq<string>>,
    personalityPose: Option<string>,
    artStyleNotes: string)

  const PRINCESS: CharacterDetail := CharacterDetail(
    "princess", "Princess", "\U{F0}\U{178}\U{2018}\U{2018}",
    "Brave warrior princess with regal bearing and combat readiness",
    [ ("description", "Young woman with warm, confident expression"),
      ("hair", "Long, flowing auburn/chestnut brown hair with natural waves"),
      ("skin", "Fair complexion with rosy cheeks"),
      ("eyes", "Brown eyes with determined gaze"),
      ("build", "Medium height with athletic build") ],
    [ ("crown", "Ornate golden crown with turquoise/teal gemstones and decorative points"),
      ("dress", "Deep teal/dark green dress with structured bodice"),
      ("cape", "Red cape/cloak with golden clasps and trim"),
      ("accessories", "Golden belt and decorative elements throughout outfit"),
      ("sleeves", "Puffy sleeves with golden trim"),
      ("footwear", "Brown leather boots suitable for adventure") ],
    Some([ "Large round silver shield with central boss",
           "Golden-handled sword or dagger",
           "Shield held confidently at her side" ]),
    None,
    "Clean cartoon/animation style, warm lighting, heroic pose showing both elegance and strength")

  const KNIGHT: CharacterDetail := CharacterDetail(
    "knight", "Knight", "\U{E2}\U{161}\U{201D}\U{EF}\U{B8}",
    "Noble armored warrior with classic chivalric bearing and protective strength",
    [ ("description", "Human male with strong, heroic build"),
      ("face", "Face partially visible through helmet visor"),
      ("eyes", "Determined brown eyes"),
      ("build", "Medium to tall height with broad shoulders"),
      ("hands", "Strong, capable hands in armored gauntlets") ],
    [ ("armor", "Full plate armor in polished steel/silver"),
      ("helmet", "Distinctive helmet with horizontal visor slits"),
      ("trim", "Golden/brass trim and accents on armor"),
      ("surcoat", "Teal/dark green surcoat over armor"),
      ("straps", "Brown leather straps and buckles"),
      ("tunic", "Teal tunic with golden border trim"),
      ("inner_clothing", "Red decorative elements or inner clothing") ],
    Some([ "Small battle axe or weapon at side",
           "Well-maintained equipment showing pride in service" ]),
    None,
    "Classic medieval knight aesthetic, realistic armor details, noble bearing, heroic proportions")

  const DRAGON: CharacterDetail := CharacterDetail(
    "dragon", "Dragon", "\U{F0}\U{178}\U{B2}",
    "Noble dragonborn sage with scholarly wisdom and ancient dignity",
    [ ("description", "Anthropomorphic dragon standing upright"),
      ("scales", "Blue-grey scaled skin with darker blue accents"),
      ("chest", "Cream/tan colored chest and belly scales"),
      ("eyes", "Sharp, intelligent amber/yellow eyes"),
      ("horns", "Prominent horns curving back from head"),
      ("features", "Spinal ridges and decorative back spikes"),
      ("tail", "Long tail with scale details"),
      ("limbs", "Clawed hands and feet"),
      ("wings", "Folded wings visible behind torso") ],
    [ ("robe", "Deep blue hooded robe with brown/tan trim"),
      ("layers", "Layered clothing underneath in earth tones"),
      ("straps", "Leather straps and buckles across chest"),
      ("jewelry", "Green gemstone brooch or amulet"),
      ("belt", "Brown leather belt with pouches"),
      ("style", "Scholarly/wizard-like appearance") ],
    None,
    Some("Dignified stance, hands clasped or gesturing wisely, slight forward lean suggesting attentiveness"),
    "Detailed scales, noble bearing, warm earth-tone color palette with blue accents")

  const CAT: CharacterDetail := CharacterDetail(
    "cat", "Cat", "\U{F0}\U{178}\U{B1}",
    "Sophisticated feline adventurer with gentleman's attire and roguish charm",
    [ ("description", "Anthropomorphic brown tabby cat standing upright"),
      ("fur", "Distinctive brown striped fur pattern"),
      ("eyes", "Bright green eyes with alert expression"),
      ("face", "Pink nose and white muzzle/chest markings"),
      ("ears", "Cat ears visible under hat"),
      ("features", "Whiskers and feline facial features"),
      ("tail", "Bushy tail") ],
    [ ("hat", "Wide-brimmed dark blue/black hat with feathers"),
      ("coat", "Navy blue overcoat with golden trim and buttons"),
      ("vest", "Red/burgundy vest underneath"),
      ("shirt", "White collar shirt"),
      ("belt", "Brown leather belt"),
      ("pants", "Tan/beige pants or breeches"),
      ("boots", "Dark brown lace-up boots"),
      ("style", "Period-appropriate 17th/18th century styling") ],
    None,
    Some("Confident swagger, hands on hips or adjusting coat, slight smile showing personality"),
    "Swashbuckling adventure style, rich colors, detailed fabric textures, anthropomorphic but clearly feline")

  const WIZARD: CharacterDetail := CharacterDetail(
    "wizard", "Wizard", "\U{F0}\U{178}\U{A7}\U{2122}\U{E2}\U{20AC}\U{E2}\U{2122}\U{201A}\U{EF}\U{B8}",
    "Classic arcane master with ancient wisdom and mystical power",
    [ ("description", "Elderly human male with weathered, wise face"),
      ("beard", "Long flowing white beard reaching chest"),
      ("hair", "Long white hair, slightly unkempt"),
      ("eyes", "Deep-set eyes with knowing expression"),
      ("build", "Tall, lean build with slightly stooped posture"),
      ("hands", "Aged hands suitable for spellcasting") ],
    [ ("hat", "Pointed wizard hat in deep blue with slight curve/bend"),
      ("robes", "Long flowing robes in deep blue/navy"),
      ("inner_robes", "Purple/wine colored inner robes and vest"),
      ("trim", "Golden buttons, clasps, and decorative elements"),
      ("belt", "Brown leather belt with pouches and components"),
      ("fabric", "Rich fabric with multiple layers") ],
    Some([ "Tall wooden staff with ornate top",
           "Magical focus or crystal at staff tip",
           "Small flame or light emanating from hand or staff",
           "Scroll cases and spell components on belt" ]),
    None,
    "Classic fantasy wizard aesthetic, rich deep colors, mystical lighting effects, flowing fabric")

  const MOUSE: CharacterDetail := CharacterDetail(
    "mouse", "Mouse", "\U{F0}\U{178}\U{AD}",
    "Determined rodent warrior with knightly aspirations and courage beyond size",
    [ ("description", "Anthropomorphic mouse standing upright"),
      ("fur", "Grey/brown fur with lighter cream belly"),
      ("ears", "Large round ears (one visible under helmet)"),
      ("eyes", "Dark brown/black eyes with brave expression"),
      ("nose", "Pink nose and whiskers"),
      ("build", "Small but determined stature"),
      ("tail", "Long pink tail") ],
    [ ("helmet", "Metal helmet/cap with small spike or crest"),
      ("collar", "Purple high collar or cape"),
      ("tunic", "Grey/olive colored tunic or shirt"),
      ("belt", "Brown leather belt with buckle"),
      ("pants", "Brown/tan striped pants or breeches"),
      ("boots", "Small boots appropriate for mouse size"),
      ("style", "Medieval/fantasy military styling") ],
    Some([ "Small sword scaled to mouse proportions",
           "Possibly small shield or armor pieces",
           "Belt with small pouches or supplies" ]),
    None,
    "Heroic proportions despite small size, medieval adventure aesthetic, earthy color palette")

  const CHARACTER_DETAILS: map<string, CharacterDetail> := map[
    "princess" := PRINCESS,
    "knight" := KNIGHT,
    "dragon" := DRAGON,
    "cat" := CAT,
    "wizard" := WIZARD,
    "mouse" := MOUSE
  ]

  /** `Object.entries(record).map(([key, value]) => value)` */
  function Values(entries: seq<(string, string)>): (vs: seq<string>)
    ensures |vs| == |entries|
    ensures forall i :: 0 <= i < |entries| ==> vs[i] == entries[i].1
  {
    seq(|entries|, i requires 0 <= i < |entries| => entries[i].1)
  }

  /** `character.equipment ? character.equipment.join(', ') : ''` */
  function EquipmentText(equipment: Option<seq<string>>): (t: string)
    ensures equipment.None? ==> t == ""
  {
    if equipment.Some? then Join(equipment.value, ", ") else ""
  }

  /** The five segments of an image prompt: identity, features, clothing, equipment and
      style notes. */
  function Segments(c: CharacterDetail): (segs: seq<string>)
    ensures |segs| == 5
  {
    [ c.coreIdentity,
      Join(Values(c.physicalFeatures), ", "),
      "Wearing: " + Join(Values(c.clothing), ", "),
      EquipmentText(c.equipment),
      c.artStyleNotes ]
  }

  /** `${core}. ${physical}. Wearing: ${clothing}. ${equipment}. ${art}`, which is the five
      segments joined with `. `. */
  function Describe(c: CharacterDetail): string {
    Join(Segments(c), ". ")
  }

  /** `getCharacterImagePrompt` over a given table. */
  function ImagePromptIn(table: map<string, CharacterDetail>, id: string): (r: string)
    ensures id !in table <==> r == ""
    ensures id in table ==> StartsWith(r, table[id].coreIdentity + ". ")
  {
    if id !in table then ""
    else
      var c := table[id];
      var segs := Segments(c);
      assert segs[1..][1..][1..][1..] == [c.artStyleNotes];
      var r := Describe(c);
      assert r == c.coreIdentity + ". " + Join(segs[1..], ". ");
      assert r[..|c.coreIdentity + ". "|] == c.coreIdentity + ". ";
      r
  }

  function ImagePrompt(id: string): (r: string)
    ensures r == "" <==> id !in CHARACTER_DETAILS
    ensures id in CHARACTER_DETAILS ==> StartsWith(r, CHARACTER_DETAILS[id].coreIdentity + ". ")
  {
    ImagePromptIn(CHARACTER_DETAILS, id)
  }

  /** Every feature value, every clothing value, every piece of equipment and the style
      notes appear in the image prompt. */
  lemma DescribeMentions(c: CharacterDetail)
    ensures forall i :: 0 <= i < |c.physicalFeatures| ==> Contains(Describe(c), c.physicalFeatures[i].1)
    ensures forall i :: 0 <= i < |c.clothing| ==> Contains(Describe(c), c.clothing[i].1)
    ensures c.equipment.Some? ==> forall i :: 0 <= i < |c.equipment.value| ==> Contains(Describe(c), c.equipment.value[i])
    ensures Contains(Describe(c), c.artStyleNotes)
  {
    var segs := Segments(c);
    var physical := Values(c.physicalFeatures);
    var clothes := Values(c.clothing);
    forall i | 0 <= i < |c.physicalFeatures|
      ensures Contains(Describe(c), c.physicalFeatures[i].1)
    {
      JoinContains(physical, ", ", i);
      ContainsIn(segs, 1, c.physicalFeatures[i].1);
    }
    forall i | 0 <= i < |c.clothing|
      ensures Contains(Describe(c), c.clothing[i].1)
    {
      JoinContains(clothes, ", ", i);
      ContainsRight("Wearing: ", Join(clothes, ", "), c.clothing[i].1);
      ContainsIn(segs, 2, c.clothing[i].1);
    }
    if c.equipment.Some? {
      forall i | 0 <= i < |c.equipment.value|
        ensures Contains(Describe(c), c.equipment.value[i])
      {
        JoinContains(c.equipment.value, ", ", i);
        ContainsIn(segs, 3, c.equipment.value[i]);
      }
    }
    JoinContains(segs, ". ", 4);
  }

  /** Text found in one segment is found in the join of all of them. */
  lemma ContainsIn(segs: seq<string>, k: nat, part: string)
    requires k < |segs| && Contains(segs[k], part)
    ensures Contains(Join(segs, ". "), part)
  {
    JoinContainsPart(segs, ". ", k, part);
  }

  lemma {:induction false} JoinContainsPart(parts: seq<string>, sep: string, k: nat, part: string)
    requires k < |parts| && Contains(parts[k], part)
    ensures Contains(Join(parts, sep), part)
    decreases |parts|
  {
    if |parts| == 1 {
    } else if k == 0 {
      ContainsLeft(parts[0], sep, part);
      ContainsLeft(parts[0] + sep, Join(parts[1..], sep), part);
    } else {
      JoinContainsPart(parts[1..], sep, k - 1, part);
      ContainsRight(parts[0] + sep, Join(parts[1..], sep), part);
    }
  }

  /** Without equipment the equipment segment is empty, so the prompt holds `. . ` between
      the clothing and the style notes. */
  lemma NoEquipmentEmptySegment(c: CharacterDetail)
    requires c.equipment.None?
    ensures Segments(c)[3] == ""
  {
  }

  /** `getCharacterConsistencyPrompt` over a given table. */
  function ConsistencyPromptIn(table: map<string, CharacterDetail>, id: string, childName: Option<string>): (r: string)
    ensures id !in table ==> r == ""
    ensures id in table && IsSet(childName) ==> StartsWith(r, childName.value + " as a " + table[id].name + ":")
    ensures id in table && !IsSet(childName) ==> StartsWith(r, "The " + table[id].name + ":")
  {
    if id !in table then ""
    else
      var c := table[id];
      if IsSet(childName) then
        var opening := childName.value + " as a " + c.name + ":";
        var r := opening + " " + c.coreIdentity + ". IMPORTANT: In every image, " + childName.value
                 + " must have the exact same appearance as described here.";
        assert r[..|opening|] == opening;
        r
      else
        var opening := "The " + c.name + ":";
        var r := opening + " " + c.coreIdentity + ". This character must look identical in every image.";
        assert r[..|opening|] == opening;
        r
  }

  function ConsistencyPrompt(id: string, childName: Option<string>): (r: string)
    ensures id !in CHARACTER_DETAILS ==> r == ""
    ensures id in CHARACTER_DETAILS && IsSet(childName) ==>
      StartsWith(r, childName.value + " as a " + CHARACTER_DETAILS[id].name + ":")
    ensures id in CHARACTER_DETAILS && !IsSet(childName) ==> StartsWith(r, "The " + CHARACTER_DETAILS[id].name + ":")
  {
    ConsistencyPromptIn(CHARACTER_DETAILS, id, childName)
  }

  /** Both helpers know the same characters: each is empty exactly for an id the table
      does not hold. */
  lemma HelpersAgreeOnKnownIds(table: map<string, CharacterDetail>, id: string, childName: Option<string>)
    ensures ImagePromptIn(table, id) == "" <==> ConsistencyPromptIn(table, id, childName) == ""
  {
  }

  /** The table has the six characters, each stored under its own id, each described
      first by a `description` feature; the dragon and the cat carry no equipment. */
  lemma TableInvariants(table: map<string, CharacterDetail>)
    requires table == CHARACTER_DETAILS
    ensures table.Keys == {"princess", "knight", "dragon", "cat", "wizard", "mouse"}
    ensures forall id :: id in table ==> table[id].id == id
    ensures forall id :: id in table ==> |table[id].physicalFeatures| > 0 && table[id].physicalFeatures[0].0 == "description"
    ensures table["dragon"].equipment.None? && table["cat"].equipment.None?
  {
    TableKeys(table);
    forall id | id in table
      ensures table[id].id == id
      ensures |table[id].physicalFeatures| > 0 && table[id].physicalFeatures[0].0 == "description"
    {
      EntryShape(table, id);
    }
    assert table["dragon"].equipment.None?;
    assert table["cat"].equipment.None?;
  }

  lemma TableKeys(table: map<string, CharacterDetail>)
    requires table == CHARACTER_DETAILS
    ensures table.Keys == {"princess", "knight", "dragon", "cat", "wizard", "mouse"}
  {
  }

  lemma EntryShape(table: map<string, CharacterDetail>, id: string)
    requires table == CHARACTER_DETAILS && id in table
    ensures table[id].id == id
    ensures |table[id].physicalFeatures| > 0 && table[id].physicalFeatures[0].0 == "description"
  {
    TableKeys(table);
    if id == "princess" {
    } else if id == "knight" {
    } else if id == "dragon" {
    } else if id == "cat" {
    } else if id == "wizard" {
    } else {
      assert id == "mouse";
    }
  }

  lemma TableSize(table: map<string, CharacterDetail>)
    requires table == CHARACTER_DETAILS
    ensures |table| == 6
  {
    TableInvariants(table);
    SixCharacters(table.Keys);
    assert |table| == |table.Keys|;
  }

  lemma SixCharacters(keys: set<string>)
    requires keys == {"princess", "knight", "dragon", "cat", "wizard", "mouse"}
    ensures |keys| == 6
  {
  }
}
