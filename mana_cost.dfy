/**
 * `parseManaSymbols`: the generic amount is the first `{digits}` token of the
 * cost (`/\{(\d+)\}/`), and the pips are every `{W}`, `{U}`, `{B}`, `{R}`,
 * `{G}` token (`/\{([WUBRG])\}/g`) in order, each mapped to its colour name.
 */
module ManaCost {
  import opened Wrappers

  datatype ManaInfo = ManaInfo(generic: nat, pips: seq<string>)

  /** `\d`: an ASCII decimal digit. */
  predicate IsDigit(c: char)
  {
    '0' <= c <= '9'
  }

  /** The length of the (greedy) run of digits starting at `from`. */
  function DigitRunLength(s: string, from: nat): (n: nat)
    requires from <= |s|
    ensures from + n <= |s|
    ensures forall k :: from <= k < from + n ==> IsDigit(s[k])
    ensures from + n < |s| ==> !IsDigit(s[from + n])
    decreases |s| - from
  {
    if from < |s| && IsDigit(s[from]) then 1 + DigitRunLength(s, from + 1) else 0
  }

  /**
   * `/\{(\d+)\}/` matches at index `i`. Giving back digits cannot help the
   * closing brace match, so a match there is the maximal digit run after `{`.
   */
  predicate GenericTokenAt(s: string, i: nat)
  {
    && i + 1 < |s|
    && s[i] == '{'
    && var n := DigitRunLength(s, i + 1);
       0 < n && i + 1 + n < |s| && s[i + 1 + n] == '}'
  }

  /** `parseInt` of a string of decimal digits. */
  function DecimalValue(digits: string): nat
  {
    if digits == [] then 0
    else
      var d := digits[|digits| - 1] as int - '0' as int;
      10 * DecimalValue(digits[..|digits| - 1]) + (if 0 <= d <= 9 then d else 0)
  }

  /** The number that the token at `i` captures. */
  function GenericValueAt(s: string, i: nat): nat
    requires GenericTokenAt(s, i)
  {
    DecimalValue(s[i + 1..i + 1 + DigitRunLength(s, i + 1)])
  }

  /**
   * The leftmost index at or after `from` where a generic token starts, as
   * `String.prototype.match` finds it.
   */
  function FirstGenericIndex(s: string, from: nat): (r: Option<nat>)
    ensures r.None? <==> forall j :: from <= j < |s| ==> !GenericTokenAt(s, j)
    ensures r.Some? ==> from <= r.value < |s| && GenericTokenAt(s, r.value)
    ensures r.Some? ==> forall j :: from <= j < r.value ==> !GenericTokenAt(s, j)
    decreases |s| - from
  {
    if from >= |s| then None
    else if GenericTokenAt(s, from) then Some(from)
    else FirstGenericIndex(s, from + 1)
  }

  /** `{X}` with X one of the five colour letters starts at index `i`. */
  predicate PipTokenAt(s: string, i: nat)
  {
    i + 2 < |s| && s[i] == '{' && s[i + 1] in "WUBRG" && s[i + 2] == '}'
  }

  /** The `switch` that names a pip symbol. */
  function PipColorName(symbol: char): string
  {
    match symbol
    case 'W' => "White"
    case 'U' => "Blue"
    case 'B' => "Black"
    case 'R' => "Red"
    case 'G' => "Green"
    case _ => "n/a"
  }

  /** The five colour names a pip can take. */
  const PipNames: set<string> := {"White", "Blue", "Black", "Red", "Green"}

  /**
   * `matchAll` with the global pip pattern: search from `from`; after a match
   * the search resumes just past it.
   */
  function ScanPips(s: string, from: nat): seq<string>
    decreases |s| - from
  {
    if from >= |s| then []
    else if PipTokenAt(s, from) then [PipColorName(s[from + 1])] + ScanPips(s, from + 3)
    else ScanPips(s, from + 1)
  }

  /** Reference definition: one name for every index, at or after `from`, where a pip token starts. */
  function PipsAt(s: string, from: nat): seq<string>
    decreases |s| - from
  {
    if from >= |s| then []
    else (if PipTokenAt(s, from) then [PipColorName(s[from + 1])] else []) + PipsAt(s, from + 1)
  }

  /** How many pip tokens start at or after `from`. */
  function PipTokenCount(s: string, from: nat): nat
    decreases |s| - from
  {
    if from >= |s| then 0 else (if PipTokenAt(s, from) then 1 else 0) + PipTokenCount(s, from + 1)
  }

  /** Pip tokens cannot overlap, so resuming past each match skips no token. */
  lemma {:induction false} ScanFindsEveryToken(s: string, from: nat)
    ensures ScanPips(s, from) == PipsAt(s, from)
    decreases |s| - from
  {
    if from < |s| {
      if PipTokenAt(s, from) {
        ScanFindsEveryToken(s, from + 3);
        assert !PipTokenAt(s, from + 1) && !PipTokenAt(s, from + 2);
        assert PipsAt(s, from + 1) == PipsAt(s, from + 2) == PipsAt(s, from + 3);
      } else {
        ScanFindsEveryToken(s, from + 1);
      }
    }
  }

  /** Every pip is a colour name, never "n/a", and there is one per token. */
  lemma {:induction false} PipsAtNamesColors(s: string, from: nat)
    ensures |PipsAt(s, from)| == PipTokenCount(s, from)
    ensures forall k :: 0 <= k < |PipsAt(s, from)| ==> PipsAt(s, from)[k] in PipNames
    decreases |s| - from
  {
    if from < |s| {
      PipsAtNamesColors(s, from + 1);
    }
  }

  /** `parseManaSymbols(manaCost)`; `None` is an absent `mana_cost`. */
  function ParseManaSymbols(manaCost: Option<string>): (info: ManaInfo)
    ensures manaCost.None? || manaCost == Some("") ==> info == ManaInfo(0, [])
    ensures manaCost.Some? ==> info.pips == PipsAt(manaCost.value, 0)
    ensures manaCost.Some? ==> |info.pips| == PipTokenCount(manaCost.value, 0)
    ensures forall k :: 0 <= k < |info.pips| ==> info.pips[k] in PipNames
    ensures manaCost.Some? && (forall j :: 0 <= j < |manaCost.value| ==> !GenericTokenAt(manaCost.value, j))
      ==> info.generic == 0
    ensures manaCost.Some? ==>
      forall i :: (0 <= i < |manaCost.value| && GenericTokenAt(manaCost.value, i)
                  && (forall j :: 0 <= j < i ==> !GenericTokenAt(manaCost.value, j)))
                  ==> info.generic == GenericValueAt(manaCost.value, i)
  {
    if manaCost.None? || manaCost.value == "" then ManaInfo(0, [])
    else
      var s := manaCost.value;
      var generic := match FirstGenericIndex(s, 0)
        case Some(i) => GenericValueAt(s, i)
        case None => 0;
      ScanFindsEveryToken(s, 0);
      PipsAtNamesColors(s, 0);
      ManaInfo(generic, ScanPips(s, 0))
  }

  /** `"{2}{W}{W}{U}"`: generic 2 and pips White, White, Blue. */
  lemma ExampleCost()
    ensures ParseManaSymbols(Some("{2}{W}{W}{U}")) == ManaInfo(2, ["White", "White", "Blue"])
  {
    ExampleCostGeneric();
    ExampleCostPips();
  }

  lemma ExampleCostGeneric()
    ensures FirstGenericIndex("{2}{W}{W}{U}", 0) == Some(0)
    ensures GenericValueAt("{2}{W}{W}{U}", 0) == 2
  {
    var s := "{2}{W}{W}{U}";
    assert GenericTokenAt(s, 0) by {
      assert DigitRunLength(s, 2) == 0;
      assert DigitRunLength(s, 1) == 1;
    }
    assert s[1..2] == "2";
    assert DecimalValue("2") == 2;
  }

  lemma ExampleCostPips()
    ensures ScanPips("{2}{W}{W}{U}", 0) == ["White", "White", "Blue"]
  {
    var s := "{2}{W}{W}{U}";
    assert ScanPips(s, 12) == [];
    assert ScanPips(s, 9) == ["Blue"];
    assert ScanPips(s, 6) == ["White", "Blue"];
    assert ScanPips(s, 3) == ["White", "White", "Blue"];
    assert ScanPips(s, 2) == ScanPips(s, 3);
    assert ScanPips(s, 1) == ScanPips(s, 2);
  }

  /** `"{3}{R}{W}"`: generic 3 and pips Red, White. */
  lemma ExampleCostRedWhite()
    ensures ParseManaSymbols(Some("{3}{R}{W}")) == ManaInfo(3, ["Red", "White"])
  {
    ExampleCostRedWhiteGeneric();
    ExampleCostRedWhitePips();
  }

  lemma ExampleCostRedWhiteGeneric()
    ensures FirstGenericIndex("{3}{R}{W}", 0) == Some(0)
    ensures GenericValueAt("{3}{R}{W}", 0) == 3
  {
    var s := "{3}{R}{W}";
    assert GenericTokenAt(s, 0) by {
      assert DigitRunLength(s, 2) == 0;
      assert DigitRunLength(s, 1) == 1;
    }
    assert s[1..2] == "3";
    assert DecimalValue("3") == 3;
  }

  lemma ExampleCostRedWhitePips()
    ensures ScanPips("{3}{R}{W}", 0) == ["Red", "White"]
  {
    var s := "{3}{R}{W}";
    assert ScanPips(s, 9) == [];
    assert ScanPips(s, 6) == ["White"];
    assert ScanPips(s, 3) == ["Red", "White"];
    assert ScanPips(s, 2) == ScanPips(s, 3);
    assert ScanPips(s, 1) == ScanPips(s, 2);
  }

  /** Hybrid and colourless symbols are not pips, and with no numeral token the generic amount is 0. */
  lemma HybridAndColorlessIgnored()
    ensures ParseManaSymbols(Some("{W/U}{C}")) == ManaInfo(0, [])
  {
    var s := "{W/U}{C}";
    forall j | 0 <= j < |s| ensures !GenericTokenAt(s, j) && !PipTokenAt(s, j) {
      if j + 1 < |s| && s[j] == '{' {
        assert j == 0 || j == 5;
        assert DigitRunLength(s, j + 1) == 0;
      }
    }
    assert PipsAt(s, 0) == [] by {
      var k := |s|;
      while k > 0
        invariant 0 <= k <= |s| && PipsAt(s, k) == []
      {
        k := k - 1;
      }
    }
  }
}
