/**
  Whole-record behaviour on concrete records, under the sanitizer's default
  configuration unless stated otherwise. Each record is taken in three
  steps: what each item contributes, what the loop rebuilds from those
  contributions, and what the record holds after the call.
 */
module Scenarios {
  import opened Decimal
  import opened Items
  import opened Directives
  import opened RangeExpansion
  import opened Splitting
  import opened CleanHousenumbers

  /**
    The defaults: only kind `housenumber` is a house number, no value is a
    name (`FAIL_ALL`), delimiters `,;`, expansion of interpolations on.
   */
  function DefaultConfig(): Config {
    Config(IsHousenumberKind, NoName, {',', ';'}, true)
  }

  /** The default `filter-kind`: the kind `housenumber` only. */
  predicate IsHousenumberKind(kind: string) {
    kind == HOUSENUMBER
  }

  /** The default `convert-to-name`, `FAIL_ALL`: no value is a name. */
  predicate NoName(value: string) {
    false
  }

  /** A `convert-to-name` matcher that accepts `private` only. */
  predicate IsPrivate(value: string) {
    value == "private"
  }

  function Hnr(v: string): Item {
    Item(HOUSENUMBER, v, map[])
  }

  function Interpolation(v: string): Item {
    Item(INTERPOLATION, v, map[])
  }

  // Generic steps, each proved once for all configurations and items.

  /** The loop over a two-item address list. */
  lemma RebuildPair(cfg: Config, d: Directive, a: Item, b: Item)
    ensures Rebuild(cfg, d, [a, b])
         == Next(Next(Progress([], [], false), ProcessItem(cfg, d, a)), ProcessItem(cfg, d, b))
  {
    assert [a, b][..1] == [a];
    RebuildSingle(cfg, d, a);
  }

  lemma OneStep(c: Contribution)
    ensures Next(Progress([], [], false), Ok(c)) == Progress(c.toAddress, c.toNames, false)
  {
  }

  lemma TwoSteps(ca: Contribution, cb: Contribution)
    ensures Next(Next(Progress([], [], false), Ok(ca)), Ok(cb))
         == Progress(ca.toAddress + cb.toAddress, ca.toNames + cb.toNames, false)
  {
  }

  /** A range candidate whose expansion is non-empty is replaced by the numbers. */
  lemma ProcessExpanded(cfg: Config, d: Directive, it: Item, hnrs: seq<nat>)
    requires cfg.filterKind(it.kind) && !d.NoExpand? && IsRange(it.name)
    requires ExpandRange(d, it.name) == Ok(hnrs) && hnrs != []
    ensures ProcessItem(cfg, d, it) == Ok(Contribution(NumberItems(it, hnrs), []))
  {
  }

  /** A range candidate whose expansion is empty goes through `sanitize` or to the names. */
  lemma ProcessNotExpanded(cfg: Config, d: Directive, it: Item)
    requires cfg.filterKind(it.kind) && !d.NoExpand? && IsRange(it.name)
    requires ExpandRange(d, it.name) == Ok([])
    ensures ProcessItem(cfg, d, it) == Ok(Unexpanded(cfg, it))
  {
  }

  /** Without a directive, a house number goes through `sanitize` or to the names. */
  lemma ProcessUnexpanded(cfg: Config, it: Item)
    requires cfg.filterKind(it.kind)
    ensures ProcessItem(cfg, NoExpand, it) == Ok(Unexpanded(cfg, it))
  {
  }

  /** The entries of a value that is not a name become house-number items. */
  lemma UnexpandedEntries(value: string, entries: seq<string>)
    requires Sanitize(value, {',', ';'}) == entries
    ensures Unexpanded(DefaultConfig(), Hnr(value)) == Contribution(EntryItems(Hnr(value), entries), [])
  {
  }

  /** An interpolation item that is not a house-number candidate is dropped. */
  lemma ProcessInterpolation(cfg: Config, d: Directive, v: string)
    requires !cfg.filterKind(INTERPOLATION)
    ensures ProcessItem(cfg, d, Interpolation(v)) == Ok(Contribution([], []))
  {
  }

  /** With expansion on, the directive comes from the second item when only it is an interpolation. */
  lemma ResolveSecond(a: Item, b: Item)
    requires a.kind != INTERPOLATION && b.kind == INTERPOLATION
    ensures Resolve(true, [a, b]) == ParseToken(b.name)
  {
    assert FirstInterpolation([a, b]) == Some(1);
  }

  /** A non-empty value without delimiters that is not a name stays one house number. */
  lemma KeptWhole(cfg: Config, v: string)
    requires v != "" && NoDelimiter(v, cfg.delimiters) && !cfg.filterName(v)
    ensures Unexpanded(cfg, Hnr(v)) == Contribution([Hnr(v)], [])
  {
    SanitizeSingle(v, cfg.delimiters);
    assert EntryItems(Hnr(v), [v]) == [Hnr(v)];
  }

  lemma TwoDigitValue(s: string)
    requires |s| == 2 && AllDigits(s)
    ensures Value(s) == 10 * DigitValue(s[0]) + DigitValue(s[1])
  {
    var t := s[..1];
    assert t[..0] == [] && t[0] == s[0];
    assert Value(t) == DigitValue(s[0]);
  }

  /** A two-digit range such as `12-16` matches, and expands between its two bounds. */
  lemma ParseTwoDigitRange(d: Directive, s: string, a: string, b: string, first: nat, last: nat)
    requires !d.NoExpand? && s == a + "-" + b
    requires |a| == 2 && AllDigits(a) && |b| == 2 && AllDigits(b)
    requires first == 10 * DigitValue(a[0]) + DigitValue(a[1])
    requires last == 10 * DigitValue(b[0]) + DigitValue(b[1])
    ensures IsRange(s) && ExpandRange(d, s) == ExpandNumbers(d, first, last)
  {
    RangePartsExact(s, a, b);
    TwoDigitValue(a);
    TwoDigitValue(b);
  }

  /** Under `even`, both `11` and `12` as the first number give 12, 14, 16 up to 16. */
  lemma NumbersEvenToSixteen(first: nat)
    requires first == 11 || first == 12
    ensures ExpandNumbers(Parity(true), first, 16) == Ok([12, 14, 16])
  {
    assert PyRange(12, 17, 2) == [12, 14, 16] by {
      assert PyRange(16, 17, 2) == [16];
      assert PyRange(14, 17, 2) == [14, 16];
    }
  }

  // `12-16` under `even`.

  lemma ExpandEvenTwelveToSixteen()
    ensures IsRange("12-16") && ExpandRange(Parity(true), "12-16") == Ok([12, 14, 16])
  {
    ParseTwoDigitRange(Parity(true), "12-16", "12", "16", 12, 16);
    NumbersEvenToSixteen(12);
  }

  lemma ItemsTwelveToSixteen(it: Item)
    requires it == Hnr("11-16") || it == Hnr("12-16")
    ensures NumberItems(it, [12, 14, 16]) == [Hnr("12"), Hnr("14"), Hnr("16")]
  {
    assert ToString(12) == "12" && ToString(14) == "14" && ToString(16) == "16";
  }

  lemma ProcessEvenTwelveToSixteen()
    ensures ProcessItem(DefaultConfig(), Parity(true), Hnr("12-16"))
         == Ok(Contribution([Hnr("12"), Hnr("14"), Hnr("16")], []))
  {
    ExpandEvenTwelveToSixteen();
    ProcessExpanded(DefaultConfig(), Parity(true), Hnr("12-16"), [12, 14, 16]);
    ItemsTwelveToSixteen(Hnr("12-16"));
  }

  lemma RebuildEvenTwelveToSixteen()
    ensures Rebuild(DefaultConfig(), Parity(true), [Hnr("12-16"), Interpolation("even")])
         == Progress([Hnr("12"), Hnr("14"), Hnr("16")], [], false)
  {
    ProcessEvenTwelveToSixteen();
    ProcessInterpolation(DefaultConfig(), Parity(true), "even");
    RebuildPair(DefaultConfig(), Parity(true), Hnr("12-16"), Interpolation("even"));
    TwoSteps(Contribution([Hnr("12"), Hnr("14"), Hnr("16")], []), Contribution([], []));
  }

  /** `12-16` with interpolation `even` becomes 12, 14, 16; the interpolation item goes. */
  lemma EvenRangeExpands()
    ensures Transform(DefaultConfig(), [Hnr("12-16"), Interpolation("even")], [])
         == Progress([Hnr("12"), Hnr("14"), Hnr("16")], [], false)
  {
    ResolveSecond(Hnr("12-16"), Interpolation("even"));
    RebuildEvenTwelveToSixteen();
  }

  // `11-16` under `even`.

  lemma ExpandEvenElevenToSixteen()
    ensures IsRange("11-16") && ExpandRange(Parity(true), "11-16") == Ok([12, 14, 16])
  {
    ParseTwoDigitRange(Parity(true), "11-16", "11", "16", 11, 16);
    NumbersEvenToSixteen(11);
  }

  lemma ProcessEvenElevenToSixteen()
    ensures ProcessItem(DefaultConfig(), Parity(true), Hnr("11-16"))
         == Ok(Contribution([Hnr("12"), Hnr("14"), Hnr("16")], []))
  {
    ExpandEvenElevenToSixteen();
    ProcessExpanded(DefaultConfig(), Parity(true), Hnr("11-16"), [12, 14, 16]);
    ItemsTwelveToSixteen(Hnr("11-16"));
  }

  lemma RebuildEvenElevenToSixteen()
    ensures Rebuild(DefaultConfig(), Parity(true), [Hnr("11-16"), Interpolation("even")])
         == Progress([Hnr("12"), Hnr("14"), Hnr("16")], [], false)
  {
    ProcessEvenElevenToSixteen();
    ProcessInterpolation(DefaultConfig(), Parity(true), "even");
    RebuildPair(DefaultConfig(), Parity(true), Hnr("11-16"), Interpolation("even"));
    TwoSteps(Contribution([Hnr("12"), Hnr("14"), Hnr("16")], []), Contribution([], []));
  }

  /** An odd first number is moved up under `even`: `11-16` also becomes 12, 14, 16. */
  lemma EvenRangeParityCorrected()
    ensures Transform(DefaultConfig(), [Hnr("11-16"), Interpolation("even")], [])
         == Progress([Hnr("12"), Hnr("14"), Hnr("16")], [], false)
  {
    ResolveSecond(Hnr("11-16"), Interpolation("even"));
    RebuildEvenElevenToSixteen();
  }

  // `08-10` under `all`.

  lemma NumbersAllEightToTen()
    ensures ExpandNumbers(Step(1), 8, 10) == Ok([8, 9, 10])
  {
    assert PyRange(8, 11, 1) == [8, 9, 10] by {
      assert PyRange(10, 11, 1) == [10];
      assert PyRange(9, 11, 1) == [9, 10];
    }
  }

  lemma ExpandAllEightToTen()
    ensures IsRange("08-10") && ExpandRange(Step(1), "08-10") == Ok([8, 9, 10])
  {
    ParseTwoDigitRange(Step(1), "08-10", "08", "10", 8, 10);
    NumbersAllEightToTen();
  }

  lemma ItemsEightToTen()
    ensures NumberItems(Hnr("08-10"), [8, 9, 10]) == [Hnr("8"), Hnr("9"), Hnr("10")]
  {
    assert ToString(8) == "8" && ToString(9) == "9" && ToString(10) == "10";
  }

  lemma ProcessAllEightToTen()
    ensures ProcessItem(DefaultConfig(), Step(1), Hnr("08-10"))
         == Ok(Contribution([Hnr("8"), Hnr("9"), Hnr("10")], []))
  {
    ExpandAllEightToTen();
    ProcessExpanded(DefaultConfig(), Step(1), Hnr("08-10"), [8, 9, 10]);
    ItemsEightToTen();
  }

  lemma RebuildAllEightToTen()
    ensures Rebuild(DefaultConfig(), Step(1), [Hnr("08-10"), Interpolation("all")])
         == Progress([Hnr("8"), Hnr("9"), Hnr("10")], [], false)
  {
    ProcessAllEightToTen();
    ProcessInterpolation(DefaultConfig(), Step(1), "all");
    RebuildPair(DefaultConfig(), Step(1), Hnr("08-10"), Interpolation("all"));
    TwoSteps(Contribution([Hnr("8"), Hnr("9"), Hnr("10")], []), Contribution([], []));
  }

  /** `08-10` under `all` becomes 8, 9, 10: the numbers are written without leading zeros. */
  lemma LeadingZerosDropped()
    ensures Transform(DefaultConfig(), [Hnr("08-10"), Interpolation("all")], [])
         == Progress([Hnr("8"), Hnr("9"), Hnr("10")], [], false)
  {
    ResolveSecond(Hnr("08-10"), Interpolation("all"));
    RebuildAllEightToTen();
  }

  // Ranges that are not expanded.

  lemma ParseStepTwoOneToTwenty()
    ensures IsRange("1-20")
    ensures ExpandRange(Step(2), "1-20") == ExpandNumbers(Step(2), 1, 20)
  {
    RangePartsExact("1-20", "1", "20");
    assert Value("1") == 1 && Value("20") == 20;
  }

  lemma RouteStepTwoOneToTwenty()
    ensures ProcessItem(DefaultConfig(), Step(2), Hnr("1-20")) == Ok(Unexpanded(DefaultConfig(), Hnr("1-20")))
  {
    ParseStepTwoOneToTwenty();
    assert ExpandNumbers(Step(2), 1, 20) == Ok([]);
    ProcessNotExpanded(DefaultConfig(), Step(2), Hnr("1-20"));
  }

  lemma KeptOneToTwenty()
    ensures Unexpanded(DefaultConfig(), Hnr("1-20")) == Contribution([Hnr("1-20")], [])
  {
    KeptWhole(DefaultConfig(), "1-20");
  }

  lemma ProcessStepTwoOneToTwenty()
    ensures ProcessItem(DefaultConfig(), Step(2), Hnr("1-20")) == Ok(Contribution([Hnr("1-20")], []))
  {
    RouteStepTwoOneToTwenty();
    KeptOneToTwenty();
  }

  lemma RebuildStepTwoOneToTwenty()
    ensures Rebuild(DefaultConfig(), Step(2), [Hnr("1-20"), Interpolation("2")])
         == Progress([Hnr("1-20")], [], false)
  {
    ProcessStepTwoOneToTwenty();
    ProcessInterpolation(DefaultConfig(), Step(2), "2");
    RebuildPair(DefaultConfig(), Step(2), Hnr("1-20"), Interpolation("2"));
    TwoSteps(Contribution([Hnr("1-20")], []), Contribution([], []));
  }

  /**
    `1-20` with step 2 spans exactly 10 steps, which is already too many: it
    is not expanded and, holding no delimiter, stays one house number.
   */
  lemma LargeRangeKeptWhole()
    ensures Transform(DefaultConfig(), [Hnr("1-20"), Interpolation("2")], [])
         == Progress([Hnr("1-20")], [], false)
  {
    ResolveSecond(Hnr("1-20"), Interpolation("2"));
    RebuildStepTwoOneToTwenty();
  }

  /** Ten numbers with step 1 already count as too many: `1-10` under `all` is not expanded. */
  lemma TenStepsRejected()
    ensures ExpandNumbers(Step(1), 1, 10) == Ok([])
    ensures |ExpandNumbers(Step(1), 1, 9).value| == 9
  {
    ExpandShape(Step(1), 1, 9);
    ExpandEmptyIff(Step(1), 1, 9);
    var r := ExpandNumbers(Step(1), 1, 9).value;
    assert r[|r| - 1] == 1 + (|r| - 1);
  }

  /**
    A range that is empty once the parity is fixed is not expanded either:
    `13-13` under `even` and `16-12` under `all`.
   */
  lemma EmptyRangesRejected()
    ensures ExpandNumbers(Parity(true), 13, 13) == Ok([])
    ensures ExpandNumbers(Step(1), 16, 12) == Ok([])
  {
  }

  lemma KeptSwitchedOff(cfg: Config)
    requires cfg == DefaultConfig().(expandInterpolations := false)
    ensures Unexpanded(cfg, Hnr("12-16")) == Contribution([Hnr("12-16")], [])
  {
    KeptWhole(cfg, "12-16");
  }

  lemma ProcessSwitchedOff(cfg: Config)
    requires cfg == DefaultConfig().(expandInterpolations := false)
    ensures ProcessItem(cfg, NoExpand, Hnr("12-16")) == Ok(Contribution([Hnr("12-16")], []))
  {
    ProcessUnexpanded(cfg, Hnr("12-16"));
    KeptSwitchedOff(cfg);
  }

  lemma RebuildSwitchedOff(cfg: Config)
    requires cfg == DefaultConfig().(expandInterpolations := false)
    ensures Rebuild(cfg, NoExpand, [Hnr("12-16"), Interpolation("even")]) == Progress([Hnr("12-16")], [], false)
  {
    ProcessSwitchedOff(cfg);
    ProcessInterpolation(cfg, NoExpand, "even");
    RebuildPair(cfg, NoExpand, Hnr("12-16"), Interpolation("even"));
    TwoSteps(Contribution([Hnr("12-16")], []), Contribution([], []));
  }

  /** With `expand-interpolations` off, `12-16` stays one house number. */
  lemma ExpansionSwitchedOff()
    ensures var cfg := DefaultConfig().(expandInterpolations := false);
      Transform(cfg, [Hnr("12-16"), Interpolation("even")], []) == Progress([Hnr("12-16")], [], false)
  {
    RebuildSwitchedOff(DefaultConfig().(expandInterpolations := false));
  }

  // Lists.

  /** A value made of three pieces between two delimiters, the last one non-empty. */
  lemma SanitizeThreePieces(a: string, c1: char, b: string, c2: char, e: string, delims: set<char>)
    requires NoDelimiter(a, delims) && NoDelimiter(b, delims) && NoDelimiter(e, delims) && e != ""
    requires c1 in delims && c2 in delims
    ensures Sanitize(a + [c1] + b + [c2] + e, delims)
         == (if a == "" then [] else [a]) + (if b == "" then [] else [b]) + [e]
  {
    SanitizeSingle(e, delims);
    SanitizeAtDelimiter(b, c2, e, delims);
    assert a + [c1] + b + [c2] + e == a + [c1] + (b + [c2] + e);
    SanitizeAtDelimiter(a, c1, b + [c2] + e, delims);
  }

  lemma SanitizeSemicolonComma(v: string)
    requires v == "12;14,16"
    ensures Sanitize(v, {',', ';'}) == ["12", "14", "16"]
  {
    assert v == "12" + [';'] + "14" + [','] + "16";
    SanitizeThreePieces("12", ';', "14", ',', "16", {',', ';'});
  }

  lemma EntriesSemicolonComma()
    ensures EntryItems(Hnr("12;14,16"), ["12", "14", "16"]) == [Hnr("12"), Hnr("14"), Hnr("16")]
  {
  }

  lemma ProcessSemicolonComma()
    ensures ProcessItem(DefaultConfig(), NoExpand, Hnr("12;14,16"))
         == Ok(Contribution([Hnr("12"), Hnr("14"), Hnr("16")], []))
  {
    ProcessUnexpanded(DefaultConfig(), Hnr("12;14,16"));
    SanitizeSemicolonComma("12;14,16");
    UnexpandedEntries("12;14,16", ["12", "14", "16"]);
    EntriesSemicolonComma();
  }

  /** `12;14,16` is a list of three house numbers. */
  lemma ListSplits()
    ensures Transform(DefaultConfig(), [Hnr("12;14,16")], [])
         == Progress([Hnr("12"), Hnr("14"), Hnr("16")], [], false)
  {
    assert FirstInterpolation([Hnr("12;14,16")]) == None;
    ProcessSemicolonComma();
    RebuildSingle(DefaultConfig(), NoExpand, Hnr("12;14,16"));
    OneStep(Contribution([Hnr("12"), Hnr("14"), Hnr("16")], []));
  }

  lemma SanitizeDoubleComma(v: string)
    requires v == "12,,14"
    ensures Sanitize(v, {',', ';'}) == ["12", "14"]
  {
    assert v == "12" + [','] + "" + [','] + "14";
    SanitizeThreePieces("12", ',', "", ',', "14", {',', ';'});
  }

  lemma EntriesDoubleComma()
    ensures EntryItems(Hnr("12,,14"), ["12", "14"]) == [Hnr("12"), Hnr("14")]
  {
  }

  lemma ProcessDoubleComma()
    ensures ProcessItem(DefaultConfig(), NoExpand, Hnr("12,,14")) == Ok(Contribution([Hnr("12"), Hnr("14")], []))
  {
    ProcessUnexpanded(DefaultConfig(), Hnr("12,,14"));
    SanitizeDoubleComma("12,,14");
    UnexpandedEntries("12,,14", ["12", "14"]);
    EntriesDoubleComma();
  }

  /** Empty entries vanish: `12,,14` gives two house numbers. */
  lemma EmptyEntriesDropped()
    ensures Transform(DefaultConfig(), [Hnr("12,,14")], [])
         == Progress([Hnr("12"), Hnr("14")], [], false)
  {
    assert FirstInterpolation([Hnr("12,,14")]) == None;
    ProcessDoubleComma();
    RebuildSingle(DefaultConfig(), NoExpand, Hnr("12,,14"));
    OneStep(Contribution([Hnr("12"), Hnr("14")], []));
  }

  // Names and failures.

  lemma RebuildPrivate(cfg: Config, street: Item)
    requires cfg == DefaultConfig().(filterName := IsPrivate)
    requires street == Item("street", "Main Street", map[])
    ensures Rebuild(cfg, NoExpand, [street, Hnr("private")]) == Progress([street], [Hnr("private")], false)
  {
    assert ProcessItem(cfg, NoExpand, street) == Ok(Contribution([street], []));
    ProcessUnexpanded(cfg, Hnr("private"));
    RebuildPair(cfg, NoExpand, street, Hnr("private"));
    TwoSteps(Contribution([street], []), Contribution([], [Hnr("private")]));
  }

  /**
    With `convert-to-name` matching `private`, that house number moves to the
    names and leaves the address; the street item stays.
   */
  lemma NameLikeValueMoved()
    ensures var cfg := DefaultConfig().(filterName := IsPrivate);
      var street := Item("street", "Main Street", map[]);
      Transform(cfg, [street, Hnr("private")], [])
        == Progress([street], [Hnr("private")], false)
  {
    var street := Item("street", "Main Street", map[]);
    assert FirstInterpolation([street, Hnr("private")]) == None;
    RebuildPrivate(DefaultConfig().(filterName := IsPrivate), street);
  }

  lemma RebuildZeroStep()
    ensures Rebuild(DefaultConfig(), Step(0), [Hnr("12-16"), Interpolation("0")]) == Progress([], [], true)
  {
    RangePartsExact("12-16", "12", "16");
    assert RangeCandidate(DefaultConfig(), Hnr("12-16"));
    RebuildPair(DefaultConfig(), Step(0), Hnr("12-16"), Interpolation("0"));
  }

  /**
    Interpolation `0` gives step 0: the range raises ZeroDivisionError and the
    address list is left as it was.
   */
  lemma ZeroStepRaises()
    ensures var address := [Hnr("12-16"), Interpolation("0")];
      Transform(DefaultConfig(), address, []) == Progress(address, [], true)
  {
    ResolveSecond(Hnr("12-16"), Interpolation("0"));
    RebuildZeroStep();
  }
}
