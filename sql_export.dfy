/**
 * `generateSqlCall` and `updateSqlOutput`: one `CALL SP_Insert_Card(...)`
 * statement per processed card, the statements joined by newlines.
 */
module SqlExport {
  import opened JsText
  import opened ManaCost
  import opened CardForm
  import opened Wrappers

  /** The decimal digits of a natural number, as a template literal prints it. */
  function NatToString(n: nat): (s: string)
    ensures |s| >= 1 && forall k :: 0 <= k < |s| ==> IsDigit(s[k])
  {
    var digit := [('0' as int + n % 10) as char];
    if n < 10 then digit else NatToString(n / 10) + digit
  }

  /** `${n}` for an integer `n`. */
  function IntToString(n: int): string
  {
    if n < 0 then "-" + NatToString(-n) else NatToString(n)
  }

  /** `parseInt` of what `IntToString` prints. */
  function ParseIntText(s: string): int
  {
    if s != [] && s[0] == '-' then 0 - DecimalValue(s[1..]) else DecimalValue(s)
  }

  lemma {:induction false} DecimalValueOfNat(n: nat)
    ensures DecimalValue(NatToString(n)) == n
  {
    var s := NatToString(n);
    if n >= 10 {
      DecimalValueOfNat(n / 10);
      assert s[..|s| - 1] == NatToString(n / 10);
    }
  }

  /** Numbers print so that they read back as themselves. */
  lemma IntToStringRoundTrip(n: int)
    ensures ParseIntText(IntToString(n)) == n
  {
    if n < 0 {
      DecimalValueOfNat(-n);
      assert ("-" + NatToString(-n))[1..] == NatToString(-n);
    } else {
      DecimalValueOfNat(n);
    }
  }

  lemma IntToStringHasNoQuote(n: int)
    ensures QuoteCount(IntToString(n)) == 0
  {
    var digits := NatToString(if n < 0 then -n else n);
    NoQuoteInDigits(digits);
    if n < 0 {
      QuoteCountConcat("-", digits);
    }
  }

  lemma {:induction false} NoQuoteInDigits(s: string)
    requires forall k :: 0 <= k < |s| ==> IsDigit(s[k])
    ensures QuoteCount(s) == 0
  {
    if s != [] {
      NoQuoteInDigits(s[1..]);
    }
  }

  /**
   * `generateSqlCall(formData)`: the fixed call around the 22 arguments,
   * rendered and separated by ", "; `TemplateLiteral` proves that this is the
   * template character for character.
   */
  function GenerateSqlCall(card: CardRecord): string
  {
    Head + Join(RenderArgs(SqlArgs(card)), ", ") + ");"
  }

  /** One argument of the statement: a quoted string or an unquoted number. */
  datatype SqlArg = Text(text: string) | Number(value: int)

  function RenderArg(arg: SqlArg): string
  {
    match arg
    case Text(t) => "'" + t + "'"
    case Number(n) => IntToString(n)
  }

  /** The 22 arguments in the order of the stored procedure's parameters. */
  function SqlArgs(card: CardRecord): (args: seq<SqlArg>)
    ensures |args| == 22
  {
    [Text(card.cardName), Text(card.rarity), Text(card.cardType), Text(card.identity),
     Text(card.supertype), Text(card.subtype1), Text(card.subtype2), Text(card.subtype3),
     Text(card.ability1), Text(card.ability2), Text(card.ability3), Text(card.ability4),
     Text(card.ability5), Number(card.convertedCost), Number(card.genericMana),
     Number(card.pipCount), Text(card.pip1), Text(card.pip2), Text(card.pip3), Text(card.pip4),
     Text(card.pip5), Text(EscapeQuotes(card.cardText))]
  }

  function RenderArgs(args: seq<SqlArg>): (parts: seq<string>)
    ensures |parts| == |args|
    ensures forall k :: 0 <= k < |args| ==> parts[k] == RenderArg(args[k])
  {
    if args == [] then [] else [RenderArg(args[0])] + RenderArgs(args[1..])
  }

  const Head: string := "CALL SP_Insert_Card("

  /** Opening the call: the head and the first quoted argument. */
  lemma StepOpen(f: string, part: string)
    requires part == "'" + f + "'"
    ensures "CALL SP_Insert_Card('" + f + "'" == Head + part
  {
  }

  /** From a quoted argument to the next quoted one. */
  lemma StepTextText(q: string, f: string, joined: string, part: string, next: string)
    requires q + "'" == joined && part == "'" + f + "'" && next == joined + ", " + part
    ensures q + "', '" + f + "'" == next
  {
    assert q + "', '" + f + "'" == (q + "'") + ", " + ("'" + f + "'");
  }

  /** From a quoted argument to a number. */
  lemma StepTextNumber(q: string, n: string, joined: string, part: string, next: string)
    requires q + "'" == joined && part == n && next == joined + ", " + part
    ensures q + "', " + n == next
  {
    assert q + "', " + n == (q + "'") + ", " + n;
  }

  /** From a number to the next number. */
  lemma StepNumberNumber(q: string, n: string, joined: string, part: string, next: string)
    requires q == joined && part == n && next == joined + ", " + part
    ensures q + ", " + n == next
  {
  }

  /** From a number to a quoted argument. */
  lemma StepNumberText(q: string, f: string, joined: string, part: string, next: string)
    requires q == joined && part == "'" + f + "'" && next == joined + ", " + part
    ensures q + ", '" + f + "'" == next
  {
    assert q + ", '" + f + "'" == q + ", " + ("'" + f + "'");
  }

  /** Closing the call after the quoted card text. */
  lemma StepClose(q: string, joined: string)
    requires q + "'" == joined
    ensures q + "');" == joined + ");"
  {
    assert q + "');" == (q + "'") + ");";
  }

  /** Extending the joined prefix by one part adds a separator and that part. */
  lemma PrefixJoinStep(head: string, parts: seq<string>, k: nat)
    requires 1 <= k < |parts|
    ensures head + Join(parts[..k + 1], ", ") == head + Join(parts[..k], ", ") + ", " + parts[k]
  {
    JoinSnoc(parts[..k], parts[k], ", ");
    assert parts[..k] + [parts[k]] == parts[..k + 1];
  }

  lemma FirstPart(head: string, parts: seq<string>)
    requires |parts| >= 1
    ensures head + Join(parts[..1], ", ") == head + parts[0]
  {
    assert parts[..1] == [parts[0]];
  }

  /* The rendered arguments, a few at a time. */

  lemma RenderedArgs0To1(card: CardRecord)
    ensures var parts := RenderArgs(SqlArgs(card));
      parts[0] == "'" + card.cardName + "'" && parts[1] == "'" + card.rarity + "'"
  {
    var args := SqlArgs(card);
    assert args[0] == Text(card.cardName);
    assert args[1] == Text(card.rarity);
  }

  lemma RenderedArgs2To3(card: CardRecord)
    ensures var parts := RenderArgs(SqlArgs(card));
      parts[2] == "'" + card.cardType + "'" && parts[3] == "'" + card.identity + "'"
  {
    var args := SqlArgs(card);
    assert args[2] == Text(card.cardType);
    assert args[3] == Text(card.identity);
  }

  lemma RenderedArgs4To5(card: CardRecord)
    ensures var parts := RenderArgs(SqlArgs(card));
      parts[4] == "'" + card.supertype + "'" && parts[5] == "'" + card.subtype1 + "'"
  {
    var args := SqlArgs(card);
    assert args[4] == Text(card.supertype);
    assert args[5] == Text(card.subtype1);
  }

  lemma RenderedArgs6To7(card: CardRecord)
    ensures var parts := RenderArgs(SqlArgs(card));
      parts[6] == "'" + card.subtype2 + "'" && parts[7] == "'" + card.subtype3 + "'"
  {
    var args := SqlArgs(card);
    assert args[6] == Text(card.subtype2);
    assert args[7] == Text(card.subtype3);
  }

  lemma RenderedArgs8To9(card: CardRecord)
    ensures var parts := RenderArgs(SqlArgs(card));
      parts[8] == "'" + card.ability1 + "'" && parts[9] == "'" + card.ability2 + "'"
  {
    var args := SqlArgs(card);
    assert args[8] == Text(card.ability1);
    assert args[9] == Text(card.ability2);
  }

  lemma RenderedArgs10To11(card: CardRecord)
    ensures var parts := RenderArgs(SqlArgs(card));
      parts[10] == "'" + card.ability3 + "'" && parts[11] == "'" + card.ability4 + "'"
  {
    var args := SqlArgs(card);
    assert args[10] == Text(card.ability3);
    assert args[11] == Text(card.ability4);
  }

  lemma RenderedArgs12To13(card: CardRecord)
    ensures var parts := RenderArgs(SqlArgs(card));
      parts[12] == "'" + card.ability5 + "'" && parts[13] == IntToString(card.convertedCost)
  {
    var args := SqlArgs(card);
    assert args[12] == Text(card.ability5);
    assert args[13] == Number(card.convertedCost);
  }

  lemma RenderedArgs14To15(card: CardRecord)
    ensures var parts := RenderArgs(SqlArgs(card));
      parts[14] == IntToString(card.genericMana) && parts[15] == IntToString(card.pipCount)
  {
    var args := SqlArgs(card);
    assert args[14] == Number(card.genericMana);
    assert args[15] == Number(card.pipCount);
  }

  lemma RenderedArgs16To17(card: CardRecord)
    ensures var parts := RenderArgs(SqlArgs(card));
      parts[16] == "'" + card.pip1 + "'" && parts[17] == "'" + card.pip2 + "'"
  {
    var args := SqlArgs(card);
    assert args[16] == Text(card.pip1);
    assert args[17] == Text(card.pip2);
  }

  lemma RenderedArgs18To19(card: CardRecord)
    ensures var parts := RenderArgs(SqlArgs(card));
      parts[18] == "'" + card.pip3 + "'" && parts[19] == "'" + card.pip4 + "'"
  {
    var args := SqlArgs(card);
    assert args[18] == Text(card.pip3);
    assert args[19] == Text(card.pip4);
  }

  lemma RenderedArgs20To21(card: CardRecord)
    ensures var parts := RenderArgs(SqlArgs(card));
      parts[20] == "'" + card.pip5 + "'" && parts[21] == "'" + EscapeQuotes(card.cardText) + "'"
  {
    var args := SqlArgs(card);
    assert args[20] == Text(card.pip5);
    assert args[21] == Text(EscapeQuotes(card.cardText));
  }

  lemma LayoutNames(card: CardRecord, parts: seq<string>)
    requires |parts| == 22
    requires parts[0] == "'" + card.cardName + "'"
    requires parts[1] == "'" + card.rarity + "'"
    requires parts[2] == "'" + card.cardType + "'"
    requires parts[3] == "'" + card.identity + "'"
    requires parts[4] == "'" + card.supertype + "'"
    requires parts[5] == "'" + card.subtype1 + "'"
    requires parts[6] == "'" + card.subtype2 + "'"
    requires parts[7] == "'" + card.subtype3 + "'"
    ensures "CALL SP_Insert_Card('" + card.cardName + "', '" + card.rarity + "', '" + card.cardType
      + "', '" + card.identity + "', '" + card.supertype + "', '" + card.subtype1 + "', '"
      + card.subtype2 + "', '" + card.subtype3 + "'" == Head + Join(parts[..8], ", ")
  {
    var p0 := "CALL SP_Insert_Card('" + card.cardName;
    FirstPart(Head, parts);
    StepOpen(card.cardName, parts[0]);
    var p1 := p0 + "', '" + card.rarity;
    PrefixJoinStep(Head, parts, 1);
    StepTextText(p0, card.rarity, Head + Join(parts[..1], ", "), parts[1], Head + Join(parts[..2], ", "));
    var p2 := p1 + "', '" + card.cardType;
    PrefixJoinStep(Head, parts, 2);
    StepTextText(p1, card.cardType, Head + Join(parts[..2], ", "), parts[2], Head + Join(parts[..3], ", "));
    var p3 := p2 + "', '" + card.identity;
    PrefixJoinStep(Head, parts, 3);
    StepTextText(p2, card.identity, Head + Join(parts[..3], ", "), parts[3], Head + Join(parts[..4], ", "));
    var p4 := p3 + "', '" + card.supertype;
    PrefixJoinStep(Head, parts, 4);
    StepTextText(p3, card.supertype, Head + Join(parts[..4], ", "), parts[4], Head + Join(parts[..5], ", "));
    var p5 := p4 + "', '" + card.subtype1;
    PrefixJoinStep(Head, parts, 5);
    StepTextText(p4, card.subtype1, Head + Join(parts[..5], ", "), parts[5], Head + Join(parts[..6], ", "));
    var p6 := p5 + "', '" + card.subtype2;
    PrefixJoinStep(Head, parts, 6);
    StepTextText(p5, card.subtype2, Head + Join(parts[..6], ", "), parts[6], Head + Join(parts[..7], ", "));
    var p7 := p6 + "', '" + card.subtype3;
    PrefixJoinStep(Head, parts, 7);
    StepTextText(p6, card.subtype3, Head + Join(parts[..7], ", "), parts[7], Head + Join(parts[..8], ", "));
  }

  lemma LayoutAbilitiesAndCosts(card: CardRecord, parts: seq<string>, q: string)
    requires |parts| == 22
    requires parts[8] == "'" + card.ability1 + "'"
    requires parts[9] == "'" + card.ability2 + "'"
    requires parts[10] == "'" + card.ability3 + "'"
    requires parts[11] == "'" + card.ability4 + "'"
    requires parts[12] == "'" + card.ability5 + "'"
    requires parts[13] == IntToString(card.convertedCost)
    requires parts[14] == IntToString(card.genericMana)
    requires parts[15] == IntToString(card.pipCount)
    requires q + "'" == Head + Join(parts[..8], ", ")
    ensures q + "', '" + card.ability1 + "', '" + card.ability2 + "', '" + card.ability3 + "', '"
      + card.ability4 + "', '" + card.ability5 + "', " + IntToString(card.convertedCost) + ", "
      + IntToString(card.genericMana) + ", " + IntToString(card.pipCount)
      == Head + Join(parts[..16], ", ")
  {
    var p7 := q;
    var p8 := p7 + "', '" + card.ability1;
    PrefixJoinStep(Head, parts, 8);
    StepTextText(p7, card.ability1, Head + Join(parts[..8], ", "), parts[8], Head + Join(parts[..9], ", "));
    var p9 := p8 + "', '" + card.ability2;
    PrefixJoinStep(Head, parts, 9);
    StepTextText(p8, card.ability2, Head + Join(parts[..9], ", "), parts[9], Head + Join(parts[..10], ", "));
    var p10 := p9 + "', '" + card.ability3;
    PrefixJoinStep(Head, parts, 10);
    StepTextText(p9, card.ability3, Head + Join(parts[..10], ", "), parts[10],
      Head + Join(parts[..11], ", "));
    var p11 := p10 + "', '" + card.ability4;
    PrefixJoinStep(Head, parts, 11);
    StepTextText(p10, card.ability4, Head + Join(parts[..11], ", "), parts[11],
      Head + Join(parts[..12], ", "));
    var p12 := p11 + "', '" + card.ability5;
    PrefixJoinStep(Head, parts, 12);
    StepTextText(p11, card.ability5, Head + Join(parts[..12], ", "), parts[12],
      Head + Join(parts[..13], ", "));
    var p13 := p12 + "', " + IntToString(card.convertedCost);
    PrefixJoinStep(Head, parts, 13);
    StepTextNumber(p12, IntToString(card.convertedCost),
      Head + Join(parts[..13], ", "), parts[13], Head + Join(parts[..14], ", "));
    var p14 := p13 + ", " + IntToString(card.genericMana);
    PrefixJoinStep(Head, parts, 14);
    StepNumberNumber(p13, IntToString(card.genericMana),
      Head + Join(parts[..14], ", "), parts[14], Head + Join(parts[..15], ", "));
    var p15 := p14 + ", " + IntToString(card.pipCount);
    PrefixJoinStep(Head, parts, 15);
    StepNumberNumber(p14, IntToString(card.pipCount),
      Head + Join(parts[..15], ", "), parts[15], Head + Join(parts[..16], ", "));
  }

  lemma LayoutPipsAndText(card: CardRecord, parts: seq<string>, q: string)
    requires |parts| == 22
    requires parts[16] == "'" + card.pip1 + "'"
    requires parts[17] == "'" + card.pip2 + "'"
    requires parts[18] == "'" + card.pip3 + "'"
    requires parts[19] == "'" + card.pip4 + "'"
    requires parts[20] == "'" + card.pip5 + "'"
    requires parts[21] == "'" + EscapeQuotes(card.cardText) + "'"
    requires q == Head + Join(parts[..16], ", ")
    ensures q + ", '" + card.pip1 + "', '" + card.pip2 + "', '" + card.pip3 + "', '" + card.pip4
      + "', '" + card.pip5 + "', '" + EscapeQuotes(card.cardText) + "'"
      == Head + Join(parts[..22], ", ")
  {
    var p15 := q;
    var p16 := p15 + ", '" + card.pip1;
    PrefixJoinStep(Head, parts, 16);
    StepNumberText(p15, card.pip1, Head + Join(parts[..16], ", "), parts[16], Head + Join(parts[..17], ", "));
    var p17 := p16 + "', '" + card.pip2;
    PrefixJoinStep(Head, parts, 17);
    StepTextText(p16, card.pip2, Head + Join(parts[..17], ", "), parts[17], Head + Join(parts[..18], ", "));
    var p18 := p17 + "', '" + card.pip3;
    PrefixJoinStep(Head, parts, 18);
    StepTextText(p17, card.pip3, Head + Join(parts[..18], ", "), parts[18], Head + Join(parts[..19], ", "));
    var p19 := p18 + "', '" + card.pip4;
    PrefixJoinStep(Head, parts, 19);
    StepTextText(p18, card.pip4, Head + Join(parts[..19], ", "), parts[19], Head + Join(parts[..20], ", "));
    var p20 := p19 + "', '" + card.pip5;
    PrefixJoinStep(Head, parts, 20);
    StepTextText(p19, card.pip5, Head + Join(parts[..20], ", "), parts[20], Head + Join(parts[..21], ", "));
    var p21 := p20 + "', '" + EscapeQuotes(card.cardText);
    PrefixJoinStep(Head, parts, 21);
    StepTextText(p20, EscapeQuotes(card.cardText), Head + Join(parts[..21], ", "), parts[21],
      Head + Join(parts[..22], ", "));
  }

  /**
   * The statement is the source's template literal: strings between quotes,
   * the three numbers bare, and only the card text with its quotes doubled.
   */
  lemma TemplateLiteral(card: CardRecord)
    ensures GenerateSqlCall(card) ==
      "CALL SP_Insert_Card('" + card.cardName + "', '" + card.rarity + "', '" + card.cardType
      + "', '" + card.identity + "', '" + card.supertype
      + "', '" + card.subtype1 + "', '" + card.subtype2 + "', '" + card.subtype3
      + "', '" + card.ability1 + "', '" + card.ability2 + "', '" + card.ability3
      + "', '" + card.ability4 + "', '" + card.ability5
      + "', " + IntToString(card.convertedCost) + ", " + IntToString(card.genericMana)
      + ", " + IntToString(card.pipCount)
      + ", '" + card.pip1 + "', '" + card.pip2 + "', '" + card.pip3 + "', '" + card.pip4
      + "', '" + card.pip5 + "', '" + EscapeQuotes(card.cardText) + "');"
  {
    var parts := RenderArgs(SqlArgs(card));
    RenderedArgs0To1(card);
    RenderedArgs2To3(card);
    RenderedArgs4To5(card);
    RenderedArgs6To7(card);
    RenderedArgs8To9(card);
    RenderedArgs10To11(card);
    RenderedArgs12To13(card);
    RenderedArgs14To15(card);
    RenderedArgs16To17(card);
    RenderedArgs18To19(card);
    RenderedArgs20To21(card);
    var p7 := "CALL SP_Insert_Card('" + card.cardName + "', '" + card.rarity + "', '"
      + card.cardType + "', '" + card.identity + "', '" + card.supertype + "', '" + card.subtype1
      + "', '" + card.subtype2 + "', '" + card.subtype3;
    LayoutNames(card, parts);
    var p15 := p7 + "', '" + card.ability1 + "', '" + card.ability2 + "', '" + card.ability3
      + "', '" + card.ability4 + "', '" + card.ability5 + "', " + IntToString(card.convertedCost)
      + ", " + IntToString(card.genericMana) + ", " + IntToString(card.pipCount);
    LayoutAbilitiesAndCosts(card, parts, p7);
    var p21 := p15 + ", '" + card.pip1 + "', '" + card.pip2 + "', '" + card.pip3 + "', '"
      + card.pip4 + "', '" + card.pip5 + "', '" + EscapeQuotes(card.cardText);
    LayoutPipsAndText(card, parts, p15);
    assert parts[..22] == parts;
    StepClose(p21, Head + Join(parts, ", "));
  }

  /*
   * Reading a statement back. A quoted argument ends at a lone quote, a doubled
   * quote inside it standing for one quote; a number is an optional minus sign
   * and a run of digits; arguments are separated by ", ".
   */

  /** The body of a quoted argument, after its opening quote: the value and what follows the closing quote. */
  function ReadQuotedBody(s: string): (r: Option<(string, string)>)
    ensures r.Some? ==> |r.value.1| < |s|
  {
    if s == [] then None
    else if s[0] == '\'' then
      if |s| >= 2 && s[1] == '\'' then
        match ReadQuotedBody(s[2..])
        case None => None
        case Some((v, rest)) => Some(("'" + v, rest))
      else Some(("", s[1..]))
    else
      match ReadQuotedBody(s[1..])
      case None => None
      case Some((v, rest)) => Some(([s[0]] + v, rest))
  }

  /** A non-empty run of digits at the start of `s`, its value, and what follows it. */
  function ReadDigits(s: string): (r: Option<(nat, string)>)
    ensures r.Some? ==> |r.value.1| < |s|
  {
    var k := DigitRunLength(s, 0);
    if k == 0 then None else Some((DecimalValue(s[..k]), s[k..]))
  }

  /** An optionally negative decimal number at the start of `s`, and what follows it. */
  function ReadNumber(s: string): (r: Option<(int, string)>)
    ensures r.Some? ==> |r.value.1| < |s|
  {
    if s != [] && s[0] == '-' then
      match ReadDigits(s[1..])
      case None => None
      case Some((v, rest)) => Some((0 - v, rest))
    else
      match ReadDigits(s)
      case None => None
      case Some((v, rest)) => Some((v as int, rest))
  }

  function ReadArg(s: string): (r: Option<(SqlArg, string)>)
    ensures r.Some? ==> |r.value.1| < |s|
  {
    if s != [] && s[0] == '\'' then
      match ReadQuotedBody(s[1..])
      case None => None
      case Some((v, rest)) => Some((Text(v), rest))
    else
      match ReadNumber(s)
      case None => None
      case Some((n, rest)) => Some((Number(n), rest))
  }

  /** A non-empty list of arguments separated by ", ", and what follows the last one. */
  function ReadArgs(s: string): Option<(seq<SqlArg>, string)>
    decreases |s|
  {
    match ReadArg(s)
    case None => None
    case Some((a, rest)) =>
      if |rest| >= 2 && rest[..2] == ", " then
        match ReadArgs(rest[2..])
        case None => None
        case Some((more, tail)) => Some(([a] + more, tail))
      else Some(([a], rest))
  }

  /** The argument values of a whole `CALL SP_Insert_Card(...);` statement. */
  function ReadStatement(statement: string): Option<seq<SqlArg>>
  {
    if |statement| >= |Head| && statement[..|Head|] == Head then
      match ReadArgs(statement[|Head|..])
      case Some((args, tail)) => if tail == ");" then Some(args) else None
      case None => None
    else None
  }

  /** The argument a value should be written as: text with its quotes doubled, numbers as they are. */
  function EscapeArg(v: SqlArg): SqlArg
  {
    match v
    case Text(t) => Text(EscapeQuotes(t))
    case Number(_) => v
  }

  function EscapeArgs(vals: seq<SqlArg>): (args: seq<SqlArg>)
    ensures |args| == |vals|
    ensures forall k :: 0 <= k < |vals| ==> args[k] == EscapeArg(vals[k])
  {
    if vals == [] then [] else [EscapeArg(vals[0])] + EscapeArgs(vals[1..])
  }

  lemma ReadBodyClose(rest: string)
    requires rest == [] || rest[0] != '\''
    ensures ReadQuotedBody("'" + rest) == Some(("", rest))
  {
    assert ("'" + rest)[1..] == rest;
  }

  lemma ReadBodyQuotePair(x: string, v: string, rest: string)
    requires ReadQuotedBody(x) == Some((v, rest))
    ensures ReadQuotedBody("''" + x) == Some(("'" + v, rest))
  {
    assert ("''" + x)[2..] == x;
  }

  lemma ReadBodyChar(c: char, x: string, v: string, rest: string)
    requires c != '\''
    requires ReadQuotedBody(x) == Some((v, rest))
    ensures ReadQuotedBody([c] + x) == Some(([c] + v, rest))
  {
    assert ([c] + x)[1..] == x;
  }

  lemma ReadEscapedQuote(e: string, v: string, rest: string)
    requires ReadQuotedBody(e + "'" + rest) == Some((v, rest))
    ensures ReadQuotedBody("''" + e + "'" + rest) == Some(("'" + v, rest))
  {
    assert "''" + e + "'" + rest == "''" + (e + "'" + rest);
    ReadBodyQuotePair(e + "'" + rest, v, rest);
  }

  lemma ReadEscapedChar(c: char, e: string, v: string, rest: string)
    requires c != '\''
    requires ReadQuotedBody(e + "'" + rest) == Some((v, rest))
    ensures ReadQuotedBody([c] + e + "'" + rest) == Some(([c] + v, rest))
  {
    assert [c] + e + "'" + rest == [c] + (e + "'" + rest);
    ReadBodyChar(c, e + "'" + rest, v, rest);
  }

  /** Escaped text followed by the closing quote reads back as the text. */
  lemma {:induction false} ReadEscapedText(t: string, rest: string)
    requires rest == [] || rest[0] != '\''
    ensures ReadQuotedBody(EscapeQuotes(t) + "'" + rest) == Some((t, rest))
  {
    if t == [] {
      assert EscapeQuotes(t) + "'" + rest == "'" + rest;
      ReadBodyClose(rest);
    } else {
      ReadEscapedText(t[1..], rest);
      if t[0] == '\'' {
        assert EscapeQuotes(t) == "''" + EscapeQuotes(t[1..]);
        ReadEscapedQuote(EscapeQuotes(t[1..]), t[1..], rest);
        assert "'" + t[1..] == t;
      } else {
        assert EscapeQuotes(t) == [t[0]] + EscapeQuotes(t[1..]);
        ReadEscapedChar(t[0], EscapeQuotes(t[1..]), t[1..], rest);
        assert [t[0]] + t[1..] == t;
      }
    }
  }

  /** The run of digits from `from` stops exactly where the digit string does. */
  lemma {:induction false} DigitsThenRest(d: string, rest: string, from: nat)
    requires from <= |d| && forall k :: from <= k < |d| ==> IsDigit(d[k])
    requires rest == [] || !IsDigit(rest[0])
    ensures DigitRunLength(d + rest, from) == |d| - from
    decreases |d| - from
  {
    var s := d + rest;
    if from == |d| {
      if from < |s| {
        assert s[from] == rest[0];
      }
    } else {
      assert s[from] == d[from];
      DigitsThenRest(d, rest, from + 1);
    }
  }

  lemma NumberReadsBack(n: int, rest: string)
    requires rest == [] || !IsDigit(rest[0])
    ensures ReadNumber(IntToString(n) + rest) == Some((n, rest))
  {
    if n < 0 {
      var t := NatToString(-n) + rest;
      NatDigitsReadBack(-n, rest);
      ReadNegative(t, -n, rest);
      assert IntToString(n) + rest == "-" + t;
    } else {
      var t := NatToString(n) + rest;
      NatDigitsReadBack(n, rest);
      assert t[0] == NatToString(n)[0];
      ReadUnsigned(t, n, rest);
    }
  }

  /** The digits a number prints as read back as that number, up to what follows them. */
  lemma NatDigitsReadBack(n: nat, rest: string)
    requires rest == [] || !IsDigit(rest[0])
    ensures ReadDigits(NatToString(n) + rest) == Some((n, rest))
  {
    DigitsReadBack(NatToString(n), rest);
    DecimalValueOfNat(n);
  }

  /** A run of digits reads back as its value, up to what follows it. */
  lemma DigitsReadBack(d: string, rest: string)
    requires |d| >= 1 && forall k :: 0 <= k < |d| ==> IsDigit(d[k])
    requires rest == [] || !IsDigit(rest[0])
    ensures ReadDigits(d + rest) == Some((DecimalValue(d), rest))
  {
    DigitsThenRest(d, rest, 0);
    assert (d + rest)[..|d|] == d;
    assert (d + rest)[|d|..] == rest;
  }

  /** A minus sign before a digit run negates what the run reads as. */
  lemma ReadNegative(t: string, v: nat, rest: string)
    requires ReadDigits(t) == Some((v, rest))
    ensures ReadNumber("-" + t) == Some((0 - v, rest))
  {
    assert ("-" + t)[1..] == t;
  }

  /** Without a minus sign, a number is its digit run. */
  lemma ReadUnsigned(t: string, v: nat, rest: string)
    requires t != [] && IsDigit(t[0]) && ReadDigits(t) == Some((v, rest))
    ensures ReadNumber(t) == Some((v, rest))
  {
  }

  lemma ArgReadsBack(v: SqlArg, rest: string)
    requires rest != [] && (rest[0] == ',' || rest[0] == ')')
    ensures ReadArg(RenderArg(EscapeArg(v)) + rest) == Some((v, rest))
  {
    match v
    case Text(t) => TextArgReadsBack(t, rest);
    case Number(n) => NumberArgReadsBack(n, rest);
  }

  lemma TextArgReadsBack(t: string, rest: string)
    requires rest != [] && (rest[0] == ',' || rest[0] == ')')
    ensures ReadArg("'" + EscapeQuotes(t) + "'" + rest) == Some((Text(t), rest))
  {
    var s := "'" + EscapeQuotes(t) + "'" + rest;
    assert s[1..] == EscapeQuotes(t) + "'" + rest;
    ReadEscapedText(t, rest);
  }

  lemma NumberArgReadsBack(n: int, rest: string)
    requires rest != [] && (rest[0] == ',' || rest[0] == ')')
    ensures ReadArg(IntToString(n) + rest) == Some((Number(n), rest))
  {
    NumberReadsBack(n, rest);
    var d := NatToString(if n < 0 then -n else n);
    assert IsDigit(d[0]);
  }

  lemma ReadArgsLast(s: string, v: SqlArg, tail: string)
    requires ReadArg(s) == Some((v, tail))
    requires tail != [] && tail[0] == ')'
    ensures ReadArgs(s) == Some(([v], tail))
  {
  }

  lemma ReadArgsStep(s: string, v: SqlArg, after: string, later: seq<SqlArg>, tail: string)
    requires ReadArg(s) == Some((v, ", " + after))
    requires ReadArgs(after) == Some((later, tail))
    ensures ReadArgs(s) == Some(([v] + later, tail))
  {
    assert (", " + after)[..2] == ", ";
    assert (", " + after)[2..] == after;
  }

  lemma RenderedSingle(vals: seq<SqlArg>)
    requires |vals| == 1
    ensures Join(RenderArgs(EscapeArgs(vals)), ", ") == RenderArg(EscapeArg(vals[0]))
  {
  }

  lemma RenderedCons(vals: seq<SqlArg>)
    requires |vals| >= 2
    ensures Join(RenderArgs(EscapeArgs(vals)), ", ")
      == RenderArg(EscapeArg(vals[0])) + ", " + Join(RenderArgs(EscapeArgs(vals[1..])), ", ")
  {
    var parts := RenderArgs(EscapeArgs(vals));
    assert parts[1..] == RenderArgs(EscapeArgs(vals[1..]));
  }

  lemma ReadConsAt(first: string, joined: string, tail: string, v: SqlArg, later: seq<SqlArg>)
    requires ReadArg(first + (", " + (joined + tail))) == Some((v, ", " + (joined + tail)))
    requires ReadArgs(joined + tail) == Some((later, tail))
    ensures ReadArgs(first + ", " + joined + tail) == Some(([v] + later, tail))
  {
    assert first + ", " + joined + tail == first + (", " + (joined + tail));
    ReadArgsStep(first + (", " + (joined + tail)), v, joined + tail, later, tail);
  }

  /** Escaped values, rendered and joined, read back as themselves. */
  lemma {:induction false} JoinedArgsReadBack(vals: seq<SqlArg>, tail: string)
    requires |vals| >= 1
    requires tail != [] && tail[0] == ')'
    ensures ReadArgs(Join(RenderArgs(EscapeArgs(vals)), ", ") + tail) == Some((vals, tail))
  {
    var first := RenderArg(EscapeArg(vals[0]));
    if |vals| == 1 {
      RenderedSingle(vals);
      ArgReadsBack(vals[0], tail);
      ReadArgsLast(first + tail, vals[0], tail);
      assert vals == [vals[0]];
    } else {
      var joined := Join(RenderArgs(EscapeArgs(vals[1..])), ", ");
      RenderedCons(vals);
      ArgReadsBack(vals[0], ", " + (joined + tail));
      JoinedArgsReadBack(vals[1..], tail);
      ReadConsAt(first, joined, tail, vals[0], vals[1..]);
      assert [vals[0]] + vals[1..] == vals;
    }
  }

  /** The values of the record in argument order, the card text as it stands. */
  function CardValues(card: CardRecord): (vals: seq<SqlArg>)
    ensures |vals| == 22
  {
    [Text(card.cardName), Text(card.rarity), Text(card.cardType), Text(card.identity),
     Text(card.supertype), Text(card.subtype1), Text(card.subtype2), Text(card.subtype3),
     Text(card.ability1), Text(card.ability2), Text(card.ability3), Text(card.ability4),
     Text(card.ability5), Number(card.convertedCost), Number(card.genericMana),
     Number(card.pipCount), Text(card.pip1), Text(card.pip2), Text(card.pip3), Text(card.pip4),
     Text(card.pip5), Text(card.cardText)]
  }

  /** The 18 string values that are written between quotes without being escaped. */
  function UnescapedFields(card: CardRecord): (fields: seq<string>)
    ensures |fields| == 18
  {
    [card.cardName, card.rarity, card.cardType, card.identity, card.supertype,
     card.subtype1, card.subtype2, card.subtype3,
     card.ability1, card.ability2, card.ability3, card.ability4, card.ability5,
     card.pip1, card.pip2, card.pip3, card.pip4, card.pip5]
  }

  predicate QuoteFree(fields: seq<string>)
  {
    forall k :: 0 <= k < |fields| ==> '\'' !in fields[k]
  }

  lemma EscapedArgAt(card: CardRecord, k: nat)
    requires QuoteFree(UnescapedFields(card))
    requires k < 22
    ensures SqlArgs(card)[k] == EscapeArg(CardValues(card)[k])
  {
    var fields := UnescapedFields(card);
    if k < 13 {
      assert SqlArgs(card)[k] == Text(fields[k]) == CardValues(card)[k];
      assert EscapeQuotes(fields[k]) == fields[k];
    } else if 16 <= k < 21 {
      assert SqlArgs(card)[k] == Text(fields[k - 3]) == CardValues(card)[k];
      assert EscapeQuotes(fields[k - 3]) == fields[k - 3];
    }
  }

  lemma SqlArgsEscaped(card: CardRecord)
    requires QuoteFree(UnescapedFields(card))
    ensures SqlArgs(card) == EscapeArgs(CardValues(card))
  {
    forall k | 0 <= k < 22
      ensures SqlArgs(card)[k] == EscapeArgs(CardValues(card))[k]
    {
      EscapedArgAt(card, k);
    }
  }

  /**
   * When no field other than the card text holds a quote, the statement reads
   * back as exactly the record's values, the card text included.
   */
  lemma StatementReadsBack(card: CardRecord)
    requires QuoteFree(UnescapedFields(card))
    ensures ReadStatement(GenerateSqlCall(card)) == Some(CardValues(card))
  {
    var joined := Join(RenderArgs(SqlArgs(card)), ", ");
    var statement := GenerateSqlCall(card);
    assert statement == Head + (joined + ");");
    assert statement[..|Head|] == Head;
    assert statement[|Head|..] == joined + ");";
    SqlArgsEscaped(card);
    JoinedArgsReadBack(CardValues(card), ");");
  }

  /** The number of quotes in all of `parts` together. */
  function QuoteTotal(parts: seq<string>): nat
  {
    if parts == [] then 0 else QuoteCount(parts[0]) + QuoteTotal(parts[1..])
  }

  lemma TotalFrom(parts: seq<string>, k: nat)
    requires k < |parts|
    ensures QuoteTotal(parts[k..]) == QuoteCount(parts[k]) + QuoteTotal(parts[k + 1..])
  {
    assert parts[k..][1..] == parts[k + 1..];
  }

  lemma QuotedCount(f: string)
    ensures QuoteCount("'" + f + "'") == 2 + QuoteCount(f)
  {
    QuoteCountConcat("'" + f, "'");
    QuoteCountConcat("'", f);
  }

  /** The separator ", " adds no quotes to a join. */
  lemma {:induction false} QuoteCountJoin(parts: seq<string>)
    ensures QuoteCount(Join(parts, ", ")) == QuoteTotal(parts)
  {
    if |parts| == 1 {
      assert parts[1..] == [];
    } else if |parts| >= 2 {
      QuoteCountJoin(parts[1..]);
      QuoteCountConcat(parts[0] + ", ", Join(parts[1..], ", "));
      QuoteCountConcat(parts[0], ", ");
    }
  }

  lemma {:induction false} QuoteTotalConcat(a: seq<string>, b: seq<string>)
    ensures QuoteTotal(a + b) == QuoteTotal(a) + QuoteTotal(b)
  {
    if a == [] {
      assert a + b == b;
    } else {
      assert (a + b)[1..] == a[1..] + b;
      QuoteTotalConcat(a[1..], b);
    }
  }

  function TextArgs(fields: seq<string>): (args: seq<SqlArg>)
    ensures |args| == |fields|
    ensures forall k :: 0 <= k < |fields| ==> args[k] == Text(fields[k])
  {
    if fields == [] then [] else [Text(fields[0])] + TextArgs(fields[1..])
  }

  lemma {:induction false} RenderArgsConcat(a: seq<SqlArg>, b: seq<SqlArg>)
    ensures RenderArgs(a + b) == RenderArgs(a) + RenderArgs(b)
  {
    if a == [] {
      assert a + b == b;
    } else {
      assert (a + b)[1..] == a[1..] + b;
      RenderArgsConcat(a[1..], b);
    }
  }

  /** Quoting a list of strings adds two quotes to each. */
  lemma {:induction false} TextArgsQuotes(fields: seq<string>)
    ensures QuoteTotal(RenderArgs(TextArgs(fields))) == 2 * |fields| + QuoteTotal(fields)
  {
    if fields != [] {
      var parts := RenderArgs(TextArgs(fields));
      assert parts[1..] == RenderArgs(TextArgs(fields[1..]));
      QuotedCount(fields[0]);
      TextArgsQuotes(fields[1..]);
    }
  }

  lemma NumberArgsQuotes(a: int, b: int, c: int)
    ensures QuoteTotal(RenderArgs([Number(a), Number(b), Number(c)])) == 0
  {
    var parts := RenderArgs([Number(a), Number(b), Number(c)]);
    IntToStringHasNoQuote(a);
    IntToStringHasNoQuote(b);
    IntToStringHasNoQuote(c);
    TotalFrom(parts, 0);
    TotalFrom(parts, 1);
    TotalFrom(parts, 2);
    assert parts[0..] == parts;
    assert parts[3..] == [];
  }

  function NumberArgs(card: CardRecord): seq<SqlArg>
  {
    [Number(card.convertedCost), Number(card.genericMana), Number(card.pipCount)]
  }

  lemma GroupedArgAt(card: CardRecord, k: nat)
    requires k < 22
    ensures SqlArgs(card)[k] == (TextArgs(UnescapedFields(card)[..13]) + NumberArgs(card)
      + TextArgs(UnescapedFields(card)[13..]) + [Text(EscapeQuotes(card.cardText))])[k]
  {
    var fields := UnescapedFields(card);
    var grouped := TextArgs(fields[..13]) + NumberArgs(card) + TextArgs(fields[13..])
      + [Text(EscapeQuotes(card.cardText))];
    if k < 13 {
      assert grouped[k] == Text(fields[k]);
    } else if k < 16 {
      assert grouped[k] == NumberArgs(card)[k - 13];
    } else if k < 21 {
      assert grouped[k] == Text(fields[k - 3]);
    }
  }

  /** The arguments are the quoted names, the three numbers, the quoted pips and the escaped text. */
  lemma SqlArgsGrouped(card: CardRecord)
    ensures SqlArgs(card) == TextArgs(UnescapedFields(card)[..13]) + NumberArgs(card)
      + TextArgs(UnescapedFields(card)[13..]) + [Text(EscapeQuotes(card.cardText))]
  {
    forall k | 0 <= k < 22
      ensures SqlArgs(card)[k] == (TextArgs(UnescapedFields(card)[..13]) + NumberArgs(card)
        + TextArgs(UnescapedFields(card)[13..]) + [Text(EscapeQuotes(card.cardText))])[k]
    {
      GroupedArgAt(card, k);
    }
  }

  lemma RenderedArgQuotes(card: CardRecord)
    ensures QuoteTotal(RenderArgs(SqlArgs(card))) == 38 + QuoteTotal(UnescapedFields(card))
      + 2 * QuoteCount(card.cardText)
  {
    var fields := UnescapedFields(card);
    var names := TextArgs(fields[..13]);
    var pips := TextArgs(fields[13..]);
    var last := [Text(EscapeQuotes(card.cardText))];
    SqlArgsGrouped(card);
    RenderArgsConcat(names + NumberArgs(card) + pips, last);
    RenderArgsConcat(names + NumberArgs(card), pips);
    RenderArgsConcat(names, NumberArgs(card));
    QuoteTotalConcat(RenderArgs(names + NumberArgs(card) + pips), RenderArgs(last));
    QuoteTotalConcat(RenderArgs(names + NumberArgs(card)), RenderArgs(pips));
    QuoteTotalConcat(RenderArgs(names), RenderArgs(NumberArgs(card)));
    TextArgsQuotes(fields[..13]);
    TextArgsQuotes(fields[13..]);
    NumberArgsQuotes(card.convertedCost, card.genericMana, card.pipCount);
    QuotedCount(EscapeQuotes(card.cardText));
    assert RenderArgs(last) == ["'" + EscapeQuotes(card.cardText) + "'"];
    assert fields[..13] + fields[13..] == fields;
    QuoteTotalConcat(fields[..13], fields[13..]);
  }

  lemma {:induction false} NoQuoteNoCount(s: string)
    requires '\'' !in s
    ensures QuoteCount(s) == 0
  {
    if s != [] {
      assert s[0] in s;
      NoQuoteNoCount(s[1..]);
    }
  }

  lemma HeadHasNoQuote()
    ensures QuoteCount(Head) == 0
  {
    NoQuoteNoCount(Head);
  }

  lemma CloseHasNoQuote()
    ensures QuoteCount(");") == 0
  {
    NoQuoteNoCount(");");
  }

  /** The statement's own text, around its arguments, holds no quote. */
  lemma FrameHasNoQuote(joined: string)
    ensures QuoteCount(Head + joined + ");") == QuoteCount(joined)
  {
    HeadHasNoQuote();
    CloseHasNoQuote();
    QuoteCountConcat(Head + joined, ");");
    QuoteCountConcat(Head, joined);
  }

  /**
   * Every quote of the eighteen unescaped values reaches the statement as it
   * is, while each quote of the card text is doubled; the template adds 38.
   */
  lemma StatementQuoteCount(card: CardRecord)
    ensures QuoteCount(GenerateSqlCall(card)) == 38 + QuoteTotal(UnescapedFields(card))
      + 2 * QuoteCount(card.cardText)
  {
    var parts := RenderArgs(SqlArgs(card));
    FrameHasNoQuote(Join(parts, ", "));
    QuoteCountJoin(parts);
    RenderedArgQuotes(card);
  }

  /** Rendering escaped values always gives an even number of quotes. */
  lemma {:induction false} EscapedRenderingEven(vals: seq<SqlArg>)
    ensures QuoteTotal(RenderArgs(EscapeArgs(vals))) % 2 == 0
  {
    if vals != [] {
      var parts := RenderArgs(EscapeArgs(vals));
      assert parts[1..] == RenderArgs(EscapeArgs(vals[1..]));
      EscapedRenderingEven(vals[1..]);
      match vals[0]
      case Text(t) => QuotedCount(EscapeQuotes(t));
      case Number(n) => IntToStringHasNoQuote(n);
    }
  }

  /**
   * Since only the card text is escaped, an odd number of quotes among the
   * other string values gives a statement that is not the rendering of any
   * list of values at all.
   */
  lemma OddQuotesBreakStatement(card: CardRecord, vals: seq<SqlArg>)
    requires QuoteTotal(UnescapedFields(card)) % 2 == 1
    ensures GenerateSqlCall(card) != Head + Join(RenderArgs(EscapeArgs(vals)), ", ") + ");"
  {
    StatementQuoteCount(card);
    var parts := RenderArgs(EscapeArgs(vals));
    FrameHasNoQuote(Join(parts, ", "));
    QuoteCountJoin(parts);
    EscapedRenderingEven(vals);
  }

  /** No string value of the record, the card text included, holds a line break. */
  predicate NoLineBreaks(card: CardRecord)
  {
    '\n' !in card.cardText
    && forall k :: 0 <= k < |UnescapedFields(card)| ==> '\n' !in UnescapedFields(card)[k]
  }

  lemma {:induction false} EscapeAvoidsLineBreak(s: string)
    requires '\n' !in s
    ensures '\n' !in EscapeQuotes(s)
  {
    if s != [] {
      assert s[0] in s;
      EscapeAvoidsLineBreak(s[1..]);
    }
  }

  lemma NumberAvoidsLineBreak(n: int)
    ensures '\n' !in IntToString(n)
  {
  }

  lemma FieldsAvoidLineBreaks(card: CardRecord)
    requires NoLineBreaks(card)
    ensures '\n' !in card.cardName && '\n' !in card.rarity && '\n' !in card.cardType
      && '\n' !in card.identity && '\n' !in card.supertype && '\n' !in card.subtype1
      && '\n' !in card.subtype2 && '\n' !in card.subtype3 && '\n' !in card.ability1
      && '\n' !in card.ability2 && '\n' !in card.ability3 && '\n' !in card.ability4
      && '\n' !in card.ability5 && '\n' !in card.pip1 && '\n' !in card.pip2 && '\n' !in card.pip3
      && '\n' !in card.pip4 && '\n' !in card.pip5
  {
    var fields := UnescapedFields(card);
    assert '\n' !in fields[0];
    assert '\n' !in fields[1];
    assert '\n' !in fields[2];
    assert '\n' !in fields[3];
    assert '\n' !in fields[4];
    assert '\n' !in fields[5];
    assert '\n' !in fields[6];
    assert '\n' !in fields[7];
    assert '\n' !in fields[8];
    assert '\n' !in fields[9];
    assert '\n' !in fields[10];
    assert '\n' !in fields[11];
    assert '\n' !in fields[12];
    assert '\n' !in fields[13];
    assert '\n' !in fields[14];
    assert '\n' !in fields[15];
    assert '\n' !in fields[16];
    assert '\n' !in fields[17];
  }

  /** The template adds no line break of its own. */
  lemma TemplateAvoidsLineBreak(card: CardRecord)
    requires '\n' !in card.cardName && '\n' !in card.rarity && '\n' !in card.cardType
      && '\n' !in card.identity && '\n' !in card.supertype && '\n' !in card.subtype1
      && '\n' !in card.subtype2 && '\n' !in card.subtype3 && '\n' !in card.ability1
      && '\n' !in card.ability2 && '\n' !in card.ability3 && '\n' !in card.ability4
      && '\n' !in card.ability5 && '\n' !in card.pip1 && '\n' !in card.pip2 && '\n' !in card.pip3
      && '\n' !in card.pip4 && '\n' !in card.pip5
    requires '\n' !in EscapeQuotes(card.cardText)
    requires '\n' !in IntToString(card.convertedCost) && '\n' !in IntToString(card.genericMana)
    requires '\n' !in IntToString(card.pipCount)
    ensures '\n' !in
      "CALL SP_Insert_Card('" + card.cardName + "', '" + card.rarity + "', '" + card.cardType
      + "', '" + card.identity + "', '" + card.supertype
      + "', '" + card.subtype1 + "', '" + card.subtype2 + "', '" + card.subtype3
      + "', '" + card.ability1 + "', '" + card.ability2 + "', '" + card.ability3
      + "', '" + card.ability4 + "', '" + card.ability5
      + "', " + IntToString(card.convertedCost) + ", " + IntToString(card.genericMana)
      + ", " + IntToString(card.pipCount)
      + ", '" + card.pip1 + "', '" + card.pip2 + "', '" + card.pip3 + "', '" + card.pip4
      + "', '" + card.pip5 + "', '" + EscapeQuotes(card.cardText) + "');"
  {
    TemplateLiteralsAvoidLineBreak();
    var text := "CALL SP_Insert_Card('";
    AppendAvoids(text, card.cardName, '\n');
    text := text + card.cardName;
    AppendAvoids(text, "', '", '\n');
    text := text + "', '";
    AppendAvoids(text, card.rarity, '\n');
    text := text + card.rarity;
    AppendAvoids(text, "', '", '\n');
    text := text + "', '";
    AppendAvoids(text, card.cardType, '\n');
    text := text + card.cardType;
    AppendAvoids(text, "', '", '\n');
    text := text + "', '";
    AppendAvoids(text, card.identity, '\n');
    text := text + card.identity;
    AppendAvoids(text, "', '", '\n');
    text := text + "', '";
    AppendAvoids(text, card.supertype, '\n');
    text := text + card.supertype;
    AppendAvoids(text, "', '", '\n');
    text := text + "', '";
    AppendAvoids(text, card.subtype1, '\n');
    text := text + card.subtype1;
    AppendAvoids(text, "', '", '\n');
    text := text + "', '";
    AppendAvoids(text, card.subtype2, '\n');
    text := text + card.subtype2;
    AppendAvoids(text, "', '", '\n');
    text := text + "', '";
    AppendAvoids(text, card.subtype3, '\n');
    text := text + card.subtype3;
    AppendAvoids(text, "', '", '\n');
    text := text + "', '";
    AppendAvoids(text, card.ability1, '\n');
    text := text + card.ability1;
    AppendAvoids(text, "', '", '\n');
    text := text + "', '";
    AppendAvoids(text, card.ability2, '\n');
    text := text + card.ability2;
    AppendAvoids(text, "', '", '\n');
    text := text + "', '";
    AppendAvoids(text, card.ability3, '\n');
    text := text + card.ability3;
    AppendAvoids(text, "', '", '\n');
    text := text + "', '";
    AppendAvoids(text, card.ability4, '\n');
    text := text + card.ability4;
    AppendAvoids(text, "', '", '\n');
    text := text + "', '";
    AppendAvoids(text, card.ability5, '\n');
    text := text + card.ability5;
    AppendAvoids(text, "', ", '\n');
    text := text + "', ";
    AppendAvoids(text, IntToString(card.convertedCost), '\n');
    text := text + IntToString(card.convertedCost);
    AppendAvoids(text, ", ", '\n');
    text := text + ", ";
    AppendAvoids(text, IntToString(card.genericMana), '\n');
    text := text + IntToString(card.genericMana);
    AppendAvoids(text, ", ", '\n');
    text := text + ", ";
    AppendAvoids(text, IntToString(card.pipCount), '\n');
    text := text + IntToString(card.pipCount);
    AppendAvoids(text, ", '", '\n');
    text := text + ", '";
    AppendAvoids(text, card.pip1, '\n');
    text := text + card.pip1;
    AppendAvoids(text, "', '", '\n');
    text := text + "', '";
    AppendAvoids(text, card.pip2, '\n');
    text := text + card.pip2;
    AppendAvoids(text, "', '", '\n');
    text := text + "', '";
    AppendAvoids(text, card.pip3, '\n');
    text := text + card.pip3;
    AppendAvoids(text, "', '", '\n');
    text := text + "', '";
    AppendAvoids(text, card.pip4, '\n');
    text := text + card.pip4;
    AppendAvoids(text, "', '", '\n');
    text := text + "', '";
    AppendAvoids(text, card.pip5, '\n');
    text := text + card.pip5;
    AppendAvoids(text, "', '", '\n');
    text := text + "', '";
    AppendAvoids(text, EscapeQuotes(card.cardText), '\n');
    text := text + EscapeQuotes(card.cardText);
    AppendAvoids(text, "');", '\n');
    text := text + "');";
  }

  lemma TemplateLiteralsAvoidLineBreak()
    ensures '\n' !in "');" && '\n' !in "', " && '\n' !in "', '" && '\n' !in ", " && '\n' !in ", '"
      && '\n' !in "CALL SP_Insert_Card('"
  {
  }

  lemma AppendAvoids(a: string, b: string, c: char)
    requires c !in a && c !in b
    ensures c !in a + b
  {
  }

  /** A record without line breaks gives a statement on a single line. */
  lemma StatementOnOneLine(card: CardRecord)
    requires NoLineBreaks(card)
    ensures '\n' !in GenerateSqlCall(card)
  {
    FieldsAvoidLineBreaks(card);
    EscapeAvoidsLineBreak(card.cardText);
    NumberAvoidsLineBreak(card.convertedCost);
    NumberAvoidsLineBreak(card.genericMana);
    NumberAvoidsLineBreak(card.pipCount);
    TemplateAvoidsLineBreak(card);
    TemplateLiteral(card);
  }

  /** `processedCards.map(card => generateSqlCall(card))`. */
  function Statements(cards: seq<CardRecord>): (statements: seq<string>)
    ensures |statements| == |cards|
    ensures forall k :: 0 <= k < |cards| ==> statements[k] == GenerateSqlCall(cards[k])
  {
    MapSeq(GenerateSqlCall, cards)
  }

  /** `updateSqlOutput`: the statements of the processed cards, one after another, joined by "\n". */
  function SqlOutput(cards: seq<CardRecord>): string
  {
    Join(Statements(cards), "\n")
  }

  lemma SqlOutputEmpty()
    ensures SqlOutput([]) == ""
  {
  }

  /** Pushing a card adds its statement at the end, after a line break unless it is the first. */
  lemma SqlOutputAppend(cards: seq<CardRecord>, card: CardRecord)
    ensures SqlOutput(cards + [card]) == if cards == [] then GenerateSqlCall(card)
      else SqlOutput(cards) + "\n" + GenerateSqlCall(card)
  {
    MapSeqSnoc(GenerateSqlCall, cards, card);
    if cards != [] {
      JoinSnoc(Statements(cards), GenerateSqlCall(card), "\n");
    }
  }

  /**
   * While no record holds a line break, the output's lines are exactly the
   * statements, in the order of the processed cards.
   */
  lemma {:induction false} OutputLines(cards: seq<CardRecord>)
    requires cards != []
    requires forall k :: 0 <= k < |cards| ==> NoLineBreaks(cards[k])
    ensures Split(SqlOutput(cards), '\n') == Statements(cards)
  {
    StatementsOnOneLine(cards);
    SplitJoin(Statements(cards), '\n');
  }

  lemma StatementsOnOneLine(cards: seq<CardRecord>)
    requires forall k :: 0 <= k < |cards| ==> NoLineBreaks(cards[k])
    ensures forall k :: 0 <= k < |cards| ==> '\n' !in Statements(cards)[k]
  {
    forall k | 0 <= k < |cards|
      ensures '\n' !in Statements(cards)[k]
    {
      StatementOnOneLine(cards[k]);
    }
  }

  /** Taking a card out of the list takes its statement out of the output. */
  lemma StatementsSplice(cards: seq<CardRecord>, index: nat)
    ensures Statements(Splice(cards, index)) == Splice(Statements(cards), index)
  {
    MapSeqSplice(GenerateSqlCall, cards, index);
  }

  /** With two cards listed, removing the first leaves the second's statement alone. */
  lemma RemoveFirstOfTwo(first: CardRecord, second: CardRecord)
    ensures SqlOutput(Splice([first, second], 0)) == GenerateSqlCall(second)
  {
    assert Splice([first, second], 0) == [second];
  }
}
