/**
 * The type-line computations of `populateForm`: the primary type, the
 * supertype and the subtype tokens of a line such as
 * "Legendary Creature — Human Soldier".
 */
module TypeLine {
  import opened Wrappers
  import opened JsText

  /** The em dash (U+2014) that separates types from subtypes. */
  const EmDash: char := '\U{2014}'

  /** The last element of a non-empty list: `Array.prototype.pop`'s result. */
  function Last(parts: seq<string>): string
    requires |parts| >= 1
  {
    parts[|parts| - 1]
  }

  /** The words of the type line before its first em dash, trimmed. */
  function TypesPart(typeLine: string): string
  {
    Trim(Split(typeLine, EmDash)[0])
  }

  /** `type_line.split('—')[0].trim().split(' ').pop()`. */
  function PrimaryType(typeLine: string): (t: string)
    ensures ' ' !in t && EmDash !in t
    ensures TypesPart(typeLine) == t
         || (|t| < |TypesPart(typeLine)|
             && TypesPart(typeLine) == TypesPart(typeLine)[..|TypesPart(typeLine)| - |t| - 1] + " " + t)
  {
    TrimKeepsAbsence(Split(typeLine, EmDash)[0], EmDash);
    LastWord(TypesPart(typeLine));
    Last(Split(TypesPart(typeLine), ' '))
  }

  /** The last word of a line without an em dash holds neither a space nor a dash, and closes the line. */
  lemma LastWord(line: string)
    requires EmDash !in line
    ensures var t := Last(Split(line, ' '));
      ' ' !in t && EmDash !in t
      && (line == t || (|t| < |line| && line == line[..|line| - |t| - 1] + " " + t))
  {
    var words := Split(line, ' ');
    LastPartIsSuffix(words, ' ');
    JoinContainsParts(words, " ", |words| - 1);
  }

  /** The last part of a split closes the joined string, after one separator if there are several parts. */
  lemma LastPartIsSuffix(parts: seq<string>, sep: char)
    requires |parts| >= 1
    ensures var s := Join(parts, [sep]);
      s == Last(parts) || (|Last(parts)| < |s| && s == s[..|s| - |Last(parts)| - 1] + [sep] + Last(parts))
  {
    if |parts| > 1 {
      JoinSnoc(parts[..|parts| - 1], Last(parts), [sep]);
      assert parts[..|parts| - 1] + [Last(parts)] == parts;
    }
  }

  /** The supertypes `populateForm` looks for, in priority order. */
  const Supertypes: seq<string> := ["Legendary", "Basic", "Snow", "World"]

  /** `candidates.find(t => line.includes(t))`. */
  function FindContained(candidates: seq<string>, line: string): (r: Option<string>)
    ensures r.None? <==> forall k :: 0 <= k < |candidates| ==> !Contains(line, candidates[k])
    ensures r.Some? ==>
      exists k :: (0 <= k < |candidates| && candidates[k] == r.value && Contains(line, r.value)
                   && forall j :: 0 <= j < k ==> !Contains(line, candidates[j]))
  {
    if candidates == [] then None
    else if Contains(line, candidates[0]) then Some(candidates[0])
    else
      var r := FindContained(candidates[1..], line);
      assert forall k :: 1 <= k < |candidates| ==> candidates[k] == candidates[1..][k - 1];
      r
  }

  /**
   * `supertypes.find(type => type_line.includes(type)) || 'n/a'`: the first
   * supertype occurring anywhere in the line, as a substring.
   */
  function Supertype(typeLine: string): (r: string)
    ensures r == "n/a" <==> forall k :: 0 <= k < |Supertypes| ==> !Contains(typeLine, Supertypes[k])
    ensures r != "n/a" ==>
      exists k :: (0 <= k < |Supertypes| && Supertypes[k] == r && Contains(typeLine, r)
                   && forall j :: 0 <= j < k ==> !Contains(typeLine, Supertypes[j]))
  {
    match FindContained(Supertypes, typeLine)
    case None => "n/a"
    case Some(t) => t
  }

  /** "Legendary" is checked first, so it wins over any later supertype. */
  lemma LegendaryFirst(typeLine: string)
    requires Contains(typeLine, "Legendary")
    ensures Supertype(typeLine) == "Legendary"
  {
  }

  /** No supertype contains an earlier one, so a line naming only one of them gives that one. */
  lemma EachSupertypeAlone()
    ensures forall k :: 0 <= k < |Supertypes| ==> Supertype(Supertypes[k]) == Supertypes[k]
  {
    forall k | 0 <= k < |Supertypes|
      ensures Supertype(Supertypes[k]) == Supertypes[k]
    {
      if k == 0 {
        assert Contains("Legendary", "Legendary");
        LegendaryFirst(Supertypes[k]);
      } else if k == 1 {
        BasicAlone();
      } else if k == 2 {
        SnowAlone();
      } else {
        WorldAlone();
      }
    }
  }

  lemma BasicAlone()
    ensures Supertype("Basic") == "Basic"
  {
    NotContainedLonger("Basic", "Legendary");
    assert Contains("Basic", "Basic");
  }

  lemma SnowAlone()
    ensures Supertype("Snow") == "Snow"
  {
    NotContainedLonger("Snow", "Legendary");
    NotContainedLonger("Snow", "Basic");
    assert Contains("Snow", "Snow");
  }

  lemma WorldAlone()
    ensures Supertype("World") == "World"
  {
    NotContainedLonger("World", "Legendary");
    WorldLacksFourLetters("Basic");
    WorldLacksFourLetters("Snow");
    assert Contains("World", "World");
  }

  /** Neither "Basic" nor "Snow" occurs in "World": no position starts a match. */
  lemma WorldLacksFourLetters(sub: string)
    requires sub == "Basic" || sub == "Snow"
    ensures !Contains("World", sub)
  {
    var s := "World";
    assert s[1..] == "orld" && s[1..][1..] == "rld";
    NotContainedLonger("rld", sub);
    NotContainedStep("orld", sub);
    NotContainedStep(s, sub);
  }

  lemma NotContainedLonger(s: string, sub: string)
    requires |sub| > |s|
    ensures !Contains(s, sub)
  {
    ContainsNoLonger(s, sub);
  }

  /** No match at the first position and none further on means no match at all. */
  lemma NotContainedStep(s: string, sub: string)
    requires s != [] && sub != [] && s[0] != sub[0] && !Contains(s[1..], sub)
    ensures !Contains(s, sub)
  {
  }

  /** `type_line.split('—')[1]?.trim().split(' ') || []`. */
  function SubtypeTokens(typeLine: string): (tokens: seq<string>)
    ensures EmDash !in typeLine ==> tokens == []
    ensures EmDash in typeLine ==> |tokens| >= 1
    ensures forall k :: 0 <= k < |tokens| ==> ' ' !in tokens[k] && EmDash !in tokens[k]
    ensures EmDash in typeLine ==> Join(tokens, " ") == Trim(Split(typeLine, EmDash)[1])
  {
    var parts := Split(typeLine, EmDash);
    if |parts| < 2 then
      assert EmDash !in typeLine by {
        assert Join(parts, [EmDash]) == parts[0];
      }
      []
    else
      assert EmDash in typeLine by {
        assert Join(parts, [EmDash]) == parts[0] + [EmDash] + Join(parts[1..], [EmDash]);
        assert typeLine[|parts[0]|] == EmDash;
      }
      var segment := Trim(parts[1]);
      assert EmDash !in parts[1];
      var tokens := Split(segment, ' ');
      forall k | 0 <= k < |tokens| ensures EmDash !in tokens[k] {
        assert EmDash !in segment;
        JoinContainsParts(tokens, " ", k);
      }
      tokens
  }

  /** Trimming only removes characters. */
  lemma TrimKeepsAbsence(s: string, c: char)
    requires c !in s
    ensures c !in Trim(s)
  {
    var i := |s| - |TrimStart(s)|;
    var r := Trim(s);
    forall k | 0 <= k < |r| ensures r[k] != c {
      assert r[k] == s[i + k];
    }
  }

  /** Every part is a slice of the joined string, so a character absent from it is absent from each part. */
  lemma {:induction false} JoinContainsParts(parts: seq<string>, sep: string, k: nat)
    requires k < |parts|
    ensures forall c :: c in parts[k] ==> c in Join(parts, sep)
  {
    if k > 0 {
      JoinContainsParts(parts[1..], sep, k - 1);
    }
  }

  /** A line with exactly one separator splits into the text before it and the text after it. */
  lemma SplitInTwo(a: string, sep: char, b: string)
    requires sep !in a && sep !in b
    ensures Split(a + [sep] + b, sep) == [a, b]
  {
    SplitWithoutSeparator(b, sep);
    SplitAtFirst(a, sep, b);
  }

  const ExampleLine: string := "Legendary Creature \U{2014} Human Soldier"

  lemma ExampleDashPieces()
    ensures ExampleLine == "Legendary Creature " + [EmDash] + " Human Soldier"
    ensures ExampleLine[..9] == "Legendary"
  {
  }

  lemma ExampleSpacePieces()
    ensures "Legendary Creature " == "Legendary Creature" + " "
    ensures " Human Soldier" == " " + "Human Soldier"
  {
  }

  lemma ExampleWordPieces()
    ensures "Legendary Creature" == "Legendary" + [' '] + "Creature"
    ensures "Human Soldier" == "Human" + [' '] + "Soldier"
  {
  }

  lemma ExampleSplitDash()
    ensures Split(ExampleLine, EmDash) == ["Legendary Creature ", " Human Soldier"]
  {
    ExampleDashPieces();
    SplitInTwo("Legendary Creature ", EmDash, " Human Soldier");
  }

  lemma ExampleSplitWords()
    ensures Split("Human Soldier", ' ') == ["Human", "Soldier"]
    ensures Split("Legendary Creature", ' ') == ["Legendary", "Creature"]
  {
    ExampleWordPieces();
    SplitInTwo("Human", ' ', "Soldier");
    SplitInTwo("Legendary", ' ', "Creature");
  }

  lemma ExampleTrims()
    ensures Trim("Legendary Creature ") == "Legendary Creature"
    ensures Trim(" Human Soldier") == "Human Soldier"
  {
    var legendary, human := "Legendary Creature", "Human Soldier";
    assert legendary[0] == 'L' && legendary[|legendary| - 1] == 'e';
    assert human[0] == 'H' && human[|human| - 1] == 'r';
    TrimTrailingSpace(legendary);
    TrimLeadingSpace(human);
    ExampleSpacePieces();
  }

  /** "Legendary Creature — Human Soldier": type Creature, supertype Legendary, subtypes Human and Soldier. */
  lemma ExampleTypeLine()
    ensures PrimaryType(ExampleLine) == "Creature"
    ensures Supertype(ExampleLine) == "Legendary"
    ensures SubtypeTokens(ExampleLine) == ["Human", "Soldier"]
  {
    ExampleDashPieces();
    assert Supertypes[0] == "Legendary" && Contains(ExampleLine, Supertypes[0]);
    ExampleSplitDash();
    ExampleSplitWords();
    ExampleTrims();
  }
}
