/**
 * `parseColorIdentity` and `COLOR_IDENTITY_MAP`: the card's colour letters are
 * sorted as strings, concatenated, and looked up in a fixed table of
 * archetype names; anything not in the table is "Colorless".
 */
module ColorIdentity {
  import opened Wrappers
  import opened JsText

  const ColorIdentityMap: map<string, string> := map[
    "" := "Colorless",
    "W" := "Mono White",
    "U" := "Mono Blue",
    "B" := "Mono Black",
    "R" := "Mono Red",
    "G" := "Mono Green",
    "WU" := "Azorius",
    "WB" := "Orzhov",
    "UB" := "Dimir",
    "UR" := "Izzet",
    "BR" := "Rakdos",
    "BG" := "Golgari",
    "RG" := "Gruul",
    "RW" := "Boros",
    "GW" := "Selesnya",
    "GU" := "Simic",
    "WUB" := "Esper",
    "UBR" := "Grixis",
    "BRG" := "Jund",
    "RGW" := "Naya",
    "GWU" := "Bant",
    "WBG" := "Abzan",
    "URW" := "Jeskai",
    "BGU" := "Sultai",
    "RWB" := "Mardu",
    "GUR" := "Temur",
    "WUBRG" := "Five Color"
  ]

  /** The lookup key: the letters sorted as strings and joined with no separator. */
  function ColorKey(colors: seq<string>): string
  {
    Join(Sort(colors), "")
  }

  /** `parseColorIdentity(colors)`; `None` is an absent `color_identity`. */
  function ParseColorIdentity(colors: Option<seq<string>>): (name: string)
    ensures name in ColorIdentityMap.Values
    ensures colors.None? || colors == Some([]) ==> name == "Colorless"
    ensures colors.Some? && ColorKey(colors.value) !in ColorIdentityMap ==> name == "Colorless"
  {
    ColorlessEntry();
    if colors.None? || |colors.value| == 0 then "Colorless"
    else
      var key := ColorKey(colors.value);
      if key in ColorIdentityMap then ColorIdentityMap[key] else "Colorless"
  }

  /** The table maps the empty key to "Colorless", so the fallback is one of its names. */
  lemma ColorlessEntry()
    ensures "" in ColorIdentityMap && ColorIdentityMap[""] == "Colorless"
    ensures "Colorless" in ColorIdentityMap.Values
  {
  }

  /** The name depends only on which letters occur how often, never on their order. */
  lemma PermutationInvariant(a: seq<string>, b: seq<string>)
    requires multiset(a) == multiset(b)
    ensures ParseColorIdentity(Some(a)) == ParseColorIdentity(Some(b))
  {
    SortedUnique(Sort(a), Sort(b));
    assert |a| == |multiset(a)| == |b|;
  }

  predicate IsColorLetter(c: string)
  {
    c == "W" || c == "U" || c == "B" || c == "R" || c == "G"
  }

  /** A string whose characters never decrease: how a sorted list of single letters joins. */
  predicate NonDecreasing(k: string)
  {
    |k| < 2 || (k[0] <= k[1] && NonDecreasing(k[1..]))
  }

  /** Sorted one-character strings join to a string whose characters never decrease. */
  lemma {:induction false} JoinSortedLetters(s: seq<string>)
    requires SortedStrings(s)
    requires forall i :: 0 <= i < |s| ==> |s[i]| == 1
    ensures |Join(s, "")| == |s|
    ensures NonDecreasing(Join(s, ""))
    ensures s != [] ==> Join(s, "")[0] == s[0][0]
    decreases |s|
  {
    if |s| > 1 {
      var rest := Join(s[1..], "");
      SortedTail(s);
      assert forall i :: 0 <= i < |s| - 1 ==> s[1..][i] == s[i + 1];
      JoinSortedLetters(s[1..]);
      assert Join(s, "") == s[0] + rest;
      OneCharLexLe(s[0], s[1]);
      assert (s[0] + rest)[1..] == rest;
    }
  }

  lemma OneCharLexLe(a: string, b: string)
    requires |a| == 1 && |b| == 1 && LexLe(a, b)
    ensures a[0] <= b[0]
  {
  }

  lemma SortedKeyReachable(k: string)
    requires k in ColorIdentityMap && NonDecreasing(k)
    ensures ColorIdentityMap[k] in ReachableNames
  {
    UnsortedKeys();
  }

  /** The table keys whose letters are out of code-unit order. */
  lemma UnsortedKeys()
    ensures !NonDecreasing("WU") && !NonDecreasing("WB") && !NonDecreasing("UB")
      && !NonDecreasing("UR") && !NonDecreasing("RG") && !NonDecreasing("WUB")
      && !NonDecreasing("UBR") && !NonDecreasing("BRG") && !NonDecreasing("RGW")
      && !NonDecreasing("GWU") && !NonDecreasing("WBG") && !NonDecreasing("URW")
      && !NonDecreasing("RWB") && !NonDecreasing("GUR") && !NonDecreasing("WUBRG")
  {
  }

  /** The archetype names a list of single colour letters can produce. */
  const ReachableNames: set<string> := {
    "Colorless", "Mono White", "Mono Blue", "Mono Black", "Mono Red", "Mono Green",
    "Rakdos", "Golgari", "Boros", "Selesnya", "Simic", "Sultai"
  }

  /**
   * Card data holds single letters, and the table's other keys are not in
   * sorted order: for real colour-identity lists only twelve names occur.
   */
  lemma OnlyReachableNames(colors: Option<seq<string>>)
    requires colors.Some? ==> forall i :: 0 <= i < |colors.value| ==> IsColorLetter(colors.value[i])
    ensures ParseColorIdentity(colors) in ReachableNames
  {
    if colors.Some? && |colors.value| > 0 {
      var sorted := Sort(colors.value);
      forall i | 0 <= i < |sorted| ensures |sorted[i]| == 1 {
        assert sorted[i] in multiset(colors.value);
      }
      JoinSortedLetters(sorted);
      if ColorKey(colors.value) in ColorIdentityMap {
        SortedKeyReachable(ColorKey(colors.value));
      }
    }
  }

  /** The one-letter strings of `k`, one per character. */
  function Letters(k: string): (s: seq<string>)
    ensures |s| == |k| && forall i :: 0 <= i < |k| ==> s[i] == [k[i]]
  {
    if k == [] then [] else [[k[0]]] + Letters(k[1..])
  }

  lemma {:induction false} JoinLetters(k: string)
    ensures Join(Letters(k), "") == k
  {
    if |k| > 1 {
      JoinLetters(k[1..]);
      JoinCons([k[0]], Letters(k[1..]), "");
      assert [k[0]] + "" == [k[0]];
      assert k == [k[0]] + k[1..];
    }
  }

  lemma {:induction false} NonDecreasingLettersSorted(k: string)
    requires NonDecreasing(k)
    ensures SortedStrings(Letters(k))
  {
    if |k| > 1 {
      NonDecreasingLettersSorted(k[1..]);
      var s := Letters(k);
      assert s[1..] == Letters(k[1..]);
      forall j | 0 < j < |s| ensures LexLe(s[0], s[j]) {
        if j > 1 { LexLeTransitive(s[0], s[1], s[j]); }
      }
    }
  }

  /**
   * Conversely, every name whose table key is in sorted order is produced, by
   * the key's own letters; this covers each of the twelve reachable names.
   */
  lemma SortedKeyAttained(k: string)
    requires k in ColorIdentityMap && NonDecreasing(k)
    ensures ParseColorIdentity(Some(Letters(k))) == ColorIdentityMap[k]
  {
    NonDecreasingLettersSorted(k);
    SortedUnique(Sort(Letters(k)), Letters(k));
    JoinLetters(k);
  }

  /** Notably, no list of letters yields Azorius, Izzet, Esper or Five Color. */
  lemma NeverAzoriusIzzetFiveColor(colors: seq<string>)
    requires forall i :: 0 <= i < |colors| ==> IsColorLetter(colors[i])
    ensures ParseColorIdentity(Some(colors)) !in {"Azorius", "Izzet", "Esper", "Five Color"}
  {
    OnlyReachableNames(Some(colors));
    UnreachableNames();
  }

  lemma UnreachableNames()
    ensures "Azorius" !in ReachableNames && "Izzet" !in ReachableNames
    ensures "Esper" !in ReachableNames && "Five Color" !in ReachableNames
  {
  }

  /** Red and white is Boros, whichever order the letters come in. */
  lemma BorosExample()
    ensures ParseColorIdentity(Some(["W", "R"])) == "Boros"
    ensures ParseColorIdentity(Some(["R", "W"])) == "Boros"
  {
    RedWhiteKeys();
    TableLookups();
  }

  lemma RedWhiteKeys()
    ensures ColorKey(["W", "R"]) == "RW"
    ensures ColorKey(["R", "W"]) == "RW"
  {
    assert LexLe("R", "W") && !LexLe("W", "R");
    assert Sort(["R"]) == ["R"] && Sort(["W"]) == ["W"];
    assert Sort(["W", "R"]) == Insert("W", ["R"]) == ["R", "W"];
    assert Sort(["R", "W"]) == Insert("R", ["W"]) == ["R", "W"];
  }

  /** White-blue: the table's key "WU" is not in sorted order, so the pair falls back to "Colorless". */
  lemma AzoriusFallsBack()
    ensures ParseColorIdentity(Some(["U", "W"])) == "Colorless"
  {
    BlueWhiteKey();
    TableLookups();
  }

  lemma BlueWhiteKey()
    ensures ColorKey(["U", "W"]) == "UW"
  {
    assert LexLe("U", "W");
    assert Sort(["W"]) == ["W"];
    assert Sort(["U", "W"]) == Insert("U", ["W"]) == ["U", "W"];
  }

  /** Letters are not deduplicated: a repeated letter misses the table. */
  lemma RepeatedLetterFallsBack()
    ensures ParseColorIdentity(Some(["W", "W"])) == "Colorless"
  {
    DoubleWhiteKey();
    TableLookups();
  }

  lemma DoubleWhiteKey()
    ensures ColorKey(["W", "W"]) == "WW"
  {
    LexLeReflexive("W");
    assert Sort(["W"]) == ["W"];
    assert Sort(["W", "W"]) == Insert("W", ["W"]) == ["W", "W"];
  }

  /** A run of distinct colour letters from W, U, B, R and G. */
  predicate LetterKey(k: string)
  {
    (forall i :: 0 <= i < |k| ==> k[i] in {'W', 'U', 'B', 'R', 'G'})
    && forall i, j :: 0 <= i < j < |k| ==> k[i] != k[j]
  }

  /** Every key of the table is a run of distinct colour letters. */
  lemma TableKeys()
    ensures forall k :: k in ColorIdentityMap ==> LetterKey(k)
  {
    KeyLetters();
    KeyLettersDistinct();
  }

  lemma KeyLetters()
    ensures forall k :: k in ColorIdentityMap ==> forall i :: 0 <= i < |k| ==> k[i] in {'W', 'U', 'B', 'R', 'G'}
  {
  }

  lemma KeyLettersDistinct()
    ensures forall k :: k in ColorIdentityMap ==> forall i, j :: 0 <= i < j < |k| ==> k[i] != k[j]
  {
  }

  /** The table entries the examples look up. */
  lemma TableLookups()
    ensures "RW" in ColorIdentityMap && ColorIdentityMap["RW"] == "Boros"
    ensures "UW" !in ColorIdentityMap && "WW" !in ColorIdentityMap
  {
  }
}
