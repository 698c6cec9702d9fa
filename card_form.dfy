/**
 * `populateForm` and the submit handler: the values `populateForm` computes
 * from a Scryfall card record and writes into the card form, and the record
 * the submit handler reads back from the form.
 */
module CardForm {
  import opened Wrappers
  import opened ColorIdentity
  import opened ManaCost
  import opened TypeLine

  /** The fields of a Scryfall card record that `populateForm` reads; `None` is an absent field. */
  datatype RawCard = RawCard(
    name: string,
    rarity: string,
    typeLine: string,
    colorIdentity: Option<seq<string>>,
    manaCost: Option<string>,
    cmc: int,
    oracleText: string,
    keywords: seq<string>)

  /** The values held by the card form's inputs and selects. */
  datatype FormFields = FormFields(
    cardName: string,
    rarity: string,
    cardType: string,
    identity: string,
    convertedCost: int,
    genericMana: int,
    pipCount: int,
    pip1: string, pip2: string, pip3: string, pip4: string, pip5: string,
    cardText: string,
    supertype: string,
    subtype1: string, subtype2: string, subtype3: string,
    ability1: string, ability2: string, ability3: string, ability4: string, ability5: string)
  {
    function Pips(): (p: seq<string>)
      ensures |p| == 5
    {
      [pip1, pip2, pip3, pip4, pip5]
    }

    function Abilities(): (a: seq<string>)
      ensures |a| == 5
    {
      [ability1, ability2, ability3, ability4, ability5]
    }
  }

  /** `COMBAT_ABILITIES`, the options of the ability selects; "n/a" is one of them. */
  const CombatAbilities: seq<string> := [
    "n/a", "Deathtouch", "Defender", "Double Strike", "First Strike", "Flying",
    "Haste", "Hexproof", "Indestructible", "Lifelink", "Menace", "Protection",
    "Reach", "Shroud", "Trample", "Vigilance", "Ward"
  ]

  /** `MANA_COLORS`, the options of the pip selects. */
  const ManaColors: seq<string> := ["n/a", "Black", "Blue", "Green", "Red", "White", "Colorless"]

  /** The ability selects offer "n/a" first and then sixteen distinct abilities. */
  lemma AbilityOptions()
    ensures |CombatAbilities| == 17 && CombatAbilities[0] == "n/a"
    ensures forall i, j :: 0 <= i < j < |CombatAbilities| ==> CombatAbilities[i] != CombatAbilities[j]
  {
  }

  /** The pip selects offer "n/a", "Colorless" and every colour a mana symbol can name, all distinct. */
  lemma ColorOptions()
    ensures |ManaColors| == 7 && "n/a" in ManaColors && "Colorless" in ManaColors
    ensures forall p :: p in PipNames ==> p in ManaColors
    ensures forall i, j :: 0 <= i < j < |ManaColors| ==> ManaColors[i] != ManaColors[j]
  {
  }

  /** `value || fallback` on strings: the empty string is falsy. */
  function OrDefault(value: string, fallback: string): string
  {
    if value == "" then fallback else value
  }

  /** JavaScript's `toUpperCase` on an ASCII character. */
  function AsciiUpper(c: char): char
  {
    if 'a' <= c <= 'z' then (c as int - 32) as char else c
  }

  /** `rarity.charAt(0).toUpperCase() + rarity.slice(1)`. */
  function CapitalizeRarity(rarity: string): (r: string)
    ensures |r| == |rarity| && (rarity != [] ==> r[1..] == rarity[1..])
    ensures r != [] ==> !('a' <= r[0] <= 'z')
    ensures rarity != [] && 'a' <= rarity[0] <= 'z' ==> r[0] as int == rarity[0] as int - 32
    ensures rarity == [] || !('a' <= rarity[0] <= 'z') ==> r == rarity
  {
    if rarity == [] then "" else [AsciiUpper(rarity[0])] + rarity[1..]
  }

  /** Pip slot `i` shows `pips[i] || 'n/a'`. */
  function PipSlots(pips: seq<string>): seq<string>
  {
    seq(5, i requires 0 <= i < 5 => if i < |pips| then OrDefault(pips[i], "n/a") else "n/a")
  }

  /** Subtype slot `i` shows `subtypes[i] || ''`. */
  function SubtypeSlots(tokens: seq<string>): seq<string>
  {
    seq(3, i requires 0 <= i < 3 => if i < |tokens| then tokens[i] else "")
  }

  /**
   * Ability slot `i` is overwritten with `keywords[i]` when that keyword is a
   * combat ability; otherwise it keeps the value it had.
   */
  function AbilitySlots(keywords: seq<string>, prior: seq<string>): seq<string>
    requires |prior| == 5
  {
    seq(5, i requires 0 <= i < 5 =>
      if i < |keywords| && keywords[i] in CombatAbilities then keywords[i] else prior[i])
  }

  /** The loop that fills `#pip1` … `#pip5`. */
  method FillPipSlots(pips: seq<string>) returns (slots: seq<string>)
    ensures slots == PipSlots(pips)
  {
    slots := [];
    for i := 0 to 5
      invariant |slots| == i
      invariant forall k :: 0 <= k < i ==> slots[k] == PipSlots(pips)[k]
    {
      var value := if i < |pips| then OrDefault(pips[i], "n/a") else "n/a";
      slots := slots + [value];
    }
  }

  /** The loop that fills `#subtype1` … `#subtype3`. */
  method FillSubtypeSlots(tokens: seq<string>) returns (slots: seq<string>)
    ensures slots == SubtypeSlots(tokens)
  {
    slots := [];
    for i := 0 to 3
      invariant |slots| == i
      invariant forall k :: 0 <= k < i ==> slots[k] == SubtypeSlots(tokens)[k]
    {
      var value := if i < |tokens| then OrDefault(tokens[i], "") else "";
      slots := slots + [value];
    }
  }

  /** The `keywords.forEach` that writes `#ability{index + 1}`, starting from the selects' current values. */
  method FillAbilitySlots(keywords: seq<string>, prior: seq<string>) returns (slots: seq<string>)
    requires |prior| == 5
    ensures slots == AbilitySlots(keywords, prior)
  {
    slots := prior;
    AbilitySlotsNone(prior);
    for index := 0 to |keywords|
      invariant slots == AbilitySlots(keywords[..index], prior)
    {
      var keyword := keywords[index];
      AbilitySlotsStep(keywords, index, prior);
      if index < 5 && keyword in CombatAbilities {
        slots := slots[index := keyword];
      }
    }
    assert keywords[..|keywords|] == keywords;
  }

  lemma AbilitySlotsNone(prior: seq<string>)
    requires |prior| == 5
    ensures AbilitySlots([], prior) == prior
  {
  }

  /** Reading one more keyword changes at most the slot at its own index. */
  lemma AbilitySlotsStep(keywords: seq<string>, index: nat, prior: seq<string>)
    requires |prior| == 5 && index < |keywords|
    ensures var before, keyword := AbilitySlots(keywords[..index], prior), keywords[index];
      AbilitySlots(keywords[..index + 1], prior)
      == if index < 5 && keyword in CombatAbilities then before[index := keyword] else before
  {
    var next := keywords[..index + 1];
    forall k | 0 <= k < 5
      ensures k < index ==> next[k] == keywords[..index][k]
    {
    }
  }

  /** Every value `populateForm` writes, as a function of the card and the form it writes into. */
  function Prefill(card: RawCard, before: FormFields): FormFields
  {
    var mana := ParseManaSymbols(card.manaCost);
    var pips := PipSlots(mana.pips);
    var subtypes := SubtypeSlots(SubtypeTokens(card.typeLine));
    var abilities := AbilitySlots(card.keywords, before.Abilities());
    FormFields(
      cardName := card.name,
      rarity := CapitalizeRarity(card.rarity),
      cardType := PrimaryType(card.typeLine),
      identity := ParseColorIdentity(card.colorIdentity),
      convertedCost := card.cmc,
      genericMana := mana.generic,
      pipCount := |mana.pips|,
      pip1 := pips[0], pip2 := pips[1], pip3 := pips[2], pip4 := pips[3], pip5 := pips[4],
      cardText := card.oracleText,
      supertype := Supertype(card.typeLine),
      subtype1 := subtypes[0], subtype2 := subtypes[1], subtype3 := subtypes[2],
      ability1 := abilities[0], ability2 := abilities[1], ability3 := abilities[2],
      ability4 := abilities[3], ability5 := abilities[4])
  }

  /** `populateForm(cardData)`, with `before` the values the form holds when it is called. */
  method PopulateForm(card: RawCard, before: FormFields) returns (after: FormFields)
    ensures after == Prefill(card, before)
  {
    var mana := ParseManaSymbols(card.manaCost);
    var pips := FillPipSlots(mana.pips);
    var subtypes := FillSubtypeSlots(SubtypeTokens(card.typeLine));
    var abilities := FillAbilitySlots(card.keywords, before.Abilities());
    after := FormFields(
      card.name, CapitalizeRarity(card.rarity), PrimaryType(card.typeLine),
      ParseColorIdentity(card.colorIdentity),
      card.cmc, mana.generic, |mana.pips|,
      pips[0], pips[1], pips[2], pips[3], pips[4],
      card.oracleText, Supertype(card.typeLine),
      subtypes[0], subtypes[1], subtypes[2],
      abilities[0], abilities[1], abilities[2], abilities[3], abilities[4]);
  }

  /** What the form shows for the pips of a cost: its first five pips in order, then "n/a". */
  lemma PipSlotsOfCost(manaCost: Option<string>)
    ensures var pips := ParseManaSymbols(manaCost).pips;
      forall i :: 0 <= i < 5 ==> PipSlots(pips)[i] == if i < |pips| then pips[i] else "n/a"
  {
    PipSlotsOfNames(ParseManaSymbols(manaCost).pips);
  }

  lemma PipSlotsOfNames(pips: seq<string>)
    requires forall k :: 0 <= k < |pips| ==> pips[k] in PipNames
    ensures forall i :: 0 <= i < 5 ==> PipSlots(pips)[i] == if i < |pips| then pips[i] else "n/a"
  {
    forall i | 0 <= i < 5 && i < |pips|
      ensures pips[i] != ""
    {
      assert pips[i] in PipNames;
    }
  }

  /**
   * `populateForm` only writes values the selects offer: the identity is one
   * of the colour identity names, every pip slot a `MANA_COLORS` option, and
   * every ability slot a combat ability or the value it held already.
   */
  lemma PrefillChoosesOptions(card: RawCard, before: FormFields)
    ensures var f := Prefill(card, before);
      && f.identity in ColorIdentityMap.Values
      && (forall k :: 0 <= k < 5 ==> f.Pips()[k] in ManaColors)
      && (forall k :: 0 <= k < 5 ==>
            f.Abilities()[k] in CombatAbilities || f.Abilities()[k] == before.Abilities()[k])
  {
    PrefillIdentity(card, before);
    PrefillPipOptions(card, before);
    PrefillAbilityOptions(card, before);
  }

  lemma PrefillPipOptions(card: RawCard, before: FormFields)
    ensures forall k :: 0 <= k < 5 ==> Prefill(card, before).Pips()[k] in ManaColors
  {
    PrefillPips(card, before);
    PipFieldsAreColors(Prefill(card, before), ParseManaSymbols(card.manaCost).pips);
  }

  lemma PrefillAbilityOptions(card: RawCard, before: FormFields)
    ensures var f := Prefill(card, before);
      forall k :: 0 <= k < 5 ==>
        f.Abilities()[k] in CombatAbilities || f.Abilities()[k] == before.Abilities()[k]
  {
    PrefillAbilities(card, before);
    AbilityFieldsChosen(Prefill(card, before), card.keywords, before.Abilities());
  }

  /** Pip selects holding the pip slots of parsed pips show only `MANA_COLORS` options. */
  lemma PipFieldsAreColors(f: FormFields, pips: seq<string>)
    requires forall k :: 0 <= k < |pips| ==> pips[k] in PipNames
    requires var slots := PipSlots(pips);
      f.pip1 == slots[0] && f.pip2 == slots[1] && f.pip3 == slots[2] && f.pip4 == slots[3]
      && f.pip5 == slots[4]
    ensures forall k :: 0 <= k < 5 ==> f.Pips()[k] in ManaColors
  {
    PipSlotsAreColors(pips);
  }

  /** Ability selects holding the ability slots show combat abilities or their prior values. */
  lemma AbilityFieldsChosen(f: FormFields, keywords: seq<string>, prior: seq<string>)
    requires |prior| == 5
    requires var slots := AbilitySlots(keywords, prior);
      f.ability1 == slots[0] && f.ability2 == slots[1] && f.ability3 == slots[2]
      && f.ability4 == slots[3] && f.ability5 == slots[4]
    ensures forall k :: 0 <= k < 5 ==>
      f.Abilities()[k] in CombatAbilities || f.Abilities()[k] == prior[k]
  {
    AbilitySlotsChosen(keywords, prior);
  }

  /** The identity select receives the name of the card's colour identity. */
  lemma PrefillIdentity(card: RawCard, before: FormFields)
    ensures Prefill(card, before).identity == ParseColorIdentity(card.colorIdentity)
  {
  }

  /** The pip selects receive the pip slots of the card's cost, in order. */
  lemma PrefillPips(card: RawCard, before: FormFields)
    ensures var f, slots := Prefill(card, before), PipSlots(ParseManaSymbols(card.manaCost).pips);
      f.pip1 == slots[0] && f.pip2 == slots[1] && f.pip3 == slots[2] && f.pip4 == slots[3]
      && f.pip5 == slots[4]
  {
  }

  /** The ability selects receive the ability slots of the card's keywords over their prior values. */
  lemma PrefillAbilities(card: RawCard, before: FormFields)
    ensures var f, slots := Prefill(card, before), AbilitySlots(card.keywords, before.Abilities());
      f.ability1 == slots[0] && f.ability2 == slots[1] && f.ability3 == slots[2]
      && f.ability4 == slots[3] && f.ability5 == slots[4]
  {
  }

  lemma PipSlotsAreColors(pips: seq<string>)
    requires forall k :: 0 <= k < |pips| ==> pips[k] in PipNames
    ensures forall k :: 0 <= k < 5 ==> PipSlots(pips)[k] in ManaColors
  {
    var slots := PipSlots(pips);
    forall k | 0 <= k < 5
      ensures slots[k] in ManaColors
    {
      if k < |pips| {
        assert pips[k] in PipNames;
      }
    }
  }

  lemma AbilitySlotsChosen(keywords: seq<string>, prior: seq<string>)
    requires |prior| == 5
    ensures forall k :: 0 <= k < 5 ==>
      AbilitySlots(keywords, prior)[k] in CombatAbilities || AbilitySlots(keywords, prior)[k] == prior[k]
  {
  }

  /** A keyword fills its own slot or none: a keyword at position five or later changes nothing. */
  lemma {:induction false} LateKeywordsIgnored(keywords: seq<string>, extra: seq<string>, prior: seq<string>)
    requires |prior| == 5 && |keywords| >= 5
    ensures AbilitySlots(keywords + extra, prior) == AbilitySlots(keywords[..5], prior)
  {
  }

  /** The submit handler's `formData`: the record appended to the processed-card list. */
  datatype CardRecord = CardRecord(
    name: string,
    cardName: string,
    rarity: string,
    cardType: string,
    identity: string,
    supertype: string,
    subtype1: string, subtype2: string, subtype3: string,
    ability1: string, ability2: string, ability3: string, ability4: string, ability5: string,
    convertedCost: int,
    genericMana: int,
    pipCount: int,
    pip1: string, pip2: string, pip3: string, pip4: string, pip5: string,
    cardText: string)

  /** The subtype and ability values of the form, the eight the submit handler defaults. */
  function DefaultedInputs(form: FormFields): (v: seq<string>)
    ensures |v| == 8
  {
    [form.subtype1, form.subtype2, form.subtype3,
     form.ability1, form.ability2, form.ability3, form.ability4, form.ability5]
  }

  function DefaultedOutputs(r: CardRecord): (v: seq<string>)
    ensures |v| == 8
  {
    [r.subtype1, r.subtype2, r.subtype3,
     r.ability1, r.ability2, r.ability3, r.ability4, r.ability5]
  }

  /**
   * The submit handler: every value is read from the form as it stands, and an
   * empty subtype or ability value is replaced by "n/a".
   */
  function Submit(form: FormFields): (r: CardRecord)
    ensures r.name == form.cardName && r.cardName == form.cardName
    ensures forall i :: 0 <= i < 8 ==> DefaultedOutputs(r)[i] != ""
    ensures forall i :: 0 <= i < 8 ==>
              DefaultedInputs(form)[i] != "" ==> DefaultedOutputs(r)[i] == DefaultedInputs(form)[i]
    ensures forall i :: 0 <= i < 8 ==> DefaultedInputs(form)[i] == "" ==> DefaultedOutputs(r)[i] == "n/a"
    ensures r.rarity == form.rarity && r.cardType == form.cardType && r.identity == form.identity
    ensures r.supertype == form.supertype && r.cardText == form.cardText
    ensures r.convertedCost == form.convertedCost && r.genericMana == form.genericMana
      && r.pipCount == form.pipCount
    ensures [r.pip1, r.pip2, r.pip3, r.pip4, r.pip5]
      == [form.pip1, form.pip2, form.pip3, form.pip4, form.pip5]
  {
    var r := CardRecord(
      name := form.cardName,
      cardName := form.cardName,
      rarity := form.rarity,
      cardType := form.cardType,
      identity := form.identity,
      supertype := form.supertype,
      subtype1 := OrDefault(form.subtype1, "n/a"),
      subtype2 := OrDefault(form.subtype2, "n/a"),
      subtype3 := OrDefault(form.subtype3, "n/a"),
      ability1 := OrDefault(form.ability1, "n/a"),
      ability2 := OrDefault(form.ability2, "n/a"),
      ability3 := OrDefault(form.ability3, "n/a"),
      ability4 := OrDefault(form.ability4, "n/a"),
      ability5 := OrDefault(form.ability5, "n/a"),
      convertedCost := form.convertedCost,
      genericMana := form.genericMana,
      pipCount := form.pipCount,
      pip1 := form.pip1, pip2 := form.pip2, pip3 := form.pip3, pip4 := form.pip4, pip5 := form.pip5,
      cardText := form.cardText);
    DefaultsApplied(DefaultedInputs(form), DefaultedOutputs(r));
    r
  }

  /** Eight fields read with `|| 'n/a'`: never empty, and a non-empty input is kept as it is. */
  lemma DefaultsApplied(ins: seq<string>, outs: seq<string>)
    requires |ins| == 8 && |outs| == 8
    requires outs[0] == OrDefault(ins[0], "n/a") && outs[1] == OrDefault(ins[1], "n/a")
      && outs[2] == OrDefault(ins[2], "n/a") && outs[3] == OrDefault(ins[3], "n/a")
      && outs[4] == OrDefault(ins[4], "n/a") && outs[5] == OrDefault(ins[5], "n/a")
      && outs[6] == OrDefault(ins[6], "n/a") && outs[7] == OrDefault(ins[7], "n/a")
    ensures forall i :: 0 <= i < 8 ==> outs[i] != ""
    ensures forall i :: 0 <= i < 8 ==> ins[i] != "" ==> outs[i] == ins[i]
    ensures forall i :: 0 <= i < 8 ==> ins[i] == "" ==> outs[i] == "n/a"
  {
    assert forall i :: 0 <= i < 8 ==> outs[i] == OrDefault(ins[i], "n/a");
  }

  /** The card of the end-to-end example: Boros, "{3}{R}{W}", Haste, Flying and Trample. */
  const ExampleCard: RawCard := RawCard(
    "Example", "rare", ExampleLine, Some(["R", "W"]), Some("{3}{R}{W}"), 5, "",
    ["Haste", "Flying", "Trample"])

  lemma ExamplePrefill(before: FormFields)
    ensures var f := Prefill(ExampleCard, before);
      && f.identity == "Boros" && f.cardType == "Creature" && f.supertype == "Legendary"
      && [f.subtype1, f.subtype2, f.subtype3] == ["Human", "Soldier", ""]
      && f.genericMana == 3 && f.pipCount == 2
      && [f.pip1, f.pip2, f.pip3, f.pip4, f.pip5] == ["Red", "White", "n/a", "n/a", "n/a"]
      && [f.ability1, f.ability2, f.ability3] == ["Haste", "Flying", "Trample"]
      && f.ability4 == before.ability4 && f.ability5 == before.ability5
  {
    BorosExample();
    ExampleCostRedWhite();
    ExampleTypeLine();
    PrefillIdentity(ExampleCard, before);
    PrefillPips(ExampleCard, before);
    PrefillAbilities(ExampleCard, before);
  }
}
