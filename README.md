# Nominatim house-number sanitizer, modelled in Dafny

This project models `_HousenumberSanitizer`, the address-tag preprocessing
stage of Nominatim that cleans up house numbers of one place record. The
record carries two ordered lists of kind/name items, `address` and `names`.
One call of the sanitizer does the following:

- it resolves an *interpolation directive* from the first item of kind
  `interpolation`: no expansion, a numeric step (`all` or a single digit), or
  an odd/even parity;
- it rebuilds `address` item by item:
  - items accepted by the `filter-kind` matcher become `housenumber` items;
  - a numeric range such as `12-16` is expanded into individual numbers when
    there is a directive, the range spans fewer than 10 steps and the first
    number, after the parity adjustment, is not above the last;
  - values accepted by the `convert-to-name` matcher move to `names`;
  - every other accepted value is split into list entries on the delimiter
    characters, dropping empty entries;
  - items that are not accepted stay unchanged and in order, except
    `interpolation` items, which are dropped.

Files:

- `items.dfy`: the item datatype (`clone` is a datatype update that keeps the
  other attributes), `Option`, and a `Result` type for the one failure
  modelled, ZeroDivisionError.
- `decimal.dfy`: ASCII digit strings, `int()` as `Value` and `str()` as
  `ToString`, with their round trips.
- `directive.dfy`: directive resolution (`Resolve`, `ParseToken`,
  `FirstInterpolation`).
- `range_expansion.dfy`: the range pattern `\d+-\d+`, Python's `range`, and
  `_expand_range`.
- `splitting.dfy`: the delimiter splitter, `sanitize` and the identity
  `_regularize`.
- `sanitizer.dfy`: the configuration, the per-item step `ProcessItem`, the
  loop as the function `Rebuild`, and the whole call.
  - The whole call is stated twice: as the function `Transform`, and as the
    method `Call` on the class `ProcessInfo`.
  - `Call` resolves the directive and reassigns `address` at the end.
    `RebuildAddress` runs the source's loop and updates `names` in place. Its
    loop invariant ties the state to `Rebuild` on the items processed so far.
    `Turn` is one turn of that loop, and `AddItem` is the loop body on one
    item.
- `scenarios.dfy`: whole-record outcomes on concrete records under the
  default configuration.

Modelling decisions:

- The `filter-kind` and `convert-to-name` matchers are opaque predicates.
  The delimiter set is a set of characters, and `expand-interpolations` is a
  flag. Together they form `Config`.
- The test `(last + 1 - first) / step < 10` is a float division in the
  source. The model states it exactly as `last + 1 - first < 10 * step`,
  which agrees for every step of 1 or more as long as the division does not
  overflow (see "## Left out").
- An interpolation value `0` gives step 0. The division above then raises
  `ZeroDivisionError` as soon as a range candidate is reached. This is
  modelled as an explicit failure outcome (`Result.ZeroDivisionError`,
  `raised` in `Progress`, the result of `Call`), not as a precondition. The
  exception escapes before `address` is reassigned, so the address list keeps
  its old value. Names appended by earlier items stay appended.
- The splitter is modelled as splitting at every single delimiter character,
  so runs of delimiters leave empty pieces. `sanitize` then drops the empty
  pieces.

## Model

All source paths are relative to the repository root.

| member | source | states |
|---|---|---|
| Decimal.ToString | src/nominatim_db/tokenizer/sanitizers/clean_housenumbers.py:71 | `str(n)` is a digit string without a leading zero, and it is `"0"` exactly for 0 |
| Decimal.Value | src/nominatim_db/tokenizer/sanitizers/clean_housenumbers.py:100 | `int(s)` on an ASCII digit string: it is 0 exactly when every digit is `0`; ValueOfToString and ToStringOfValue tie it to `str` |
| Decimal.ValueOfToString | src/nominatim_db/tokenizer/sanitizers/clean_housenumbers.py:71 | `int(str(n)) == n`: the decimal name of an expanded number denotes that number |
| Decimal.ToStringOfValue | src/nominatim_db/tokenizer/sanitizers/clean_housenumbers.py:100 | `str(int(s)) == s` for every digit string without a leading zero |
| Decimal.PositiveValue | src/nominatim_db/tokenizer/sanitizers/clean_housenumbers.py:100 | a digit string that does not start with `0` has a value of at least 1 |
| Decimal.ValueIgnoresLeadingZero | src/nominatim_db/tokenizer/sanitizers/clean_housenumbers.py:100 | `int` ignores a leading zero, so `08` and `8` parse to the same bound |
| Directives.FirstInterpolation | src/nominatim_db/tokenizer/sanitizers/clean_housenumbers.py:56 | finds nothing exactly when no item has kind `interpolation`; otherwise the index of an interpolation item with none before it |
| Directives.ParseToken | src/nominatim_db/tokenizer/sanitizers/clean_housenumbers.py:57-63 | a step exactly for `all` or a single digit; for a digit the step is the digit's value (`str` of the step gives the token back), and step 1 comes exactly from `all` or `1`; a parity exactly for `odd`/`even`, even exactly for `even`; nothing else expands |
| Directives.Resolve | src/nominatim_db/tokenizer/sanitizers/clean_housenumbers.py:54-63 | the directive is no expansion when `expand-interpolations` is off; any other directive is the reading of an interpolation item's value with no interpolation item before it |
| Directives.FirstIsUnique | src/nominatim_db/tokenizer/sanitizers/clean_housenumbers.py:56 | an interpolation item with none before it is the one `next(...)` returns |
| Directives.ResolveReadsFirst | src/nominatim_db/tokenizer/sanitizers/clean_housenumbers.py:55-63 | with expansion on, the directive is the reading of the first interpolation item's value |
| Directives.ResolveUsesFirstOnly | src/nominatim_db/tokenizer/sanitizers/clean_housenumbers.py:56 | items after the first interpolation item, other interpolation items included, never change the directive |
| Directives.NoInterpolationNoExpansion | src/nominatim_db/tokenizer/sanitizers/clean_housenumbers.py:54-57 | expansion switched off or no interpolation item means no expansion |
| Directives.MultiDigitTokenDisables | src/nominatim_db/tokenizer/sanitizers/clean_housenumbers.py:60-63 | a value of two or more digits is not a step: it silently disables expansion |
| RangeExpansion.HyphenIndex | src/nominatim_db/tokenizer/sanitizers/clean_housenumbers.py:100 | the position of the first hyphen: no hyphen before it, a hyphen at it unless it is the end |
| RangeExpansion.RangeParts | src/nominatim_db/tokenizer/sanitizers/clean_housenumbers.py:100 | when the value is a range, the two parts are digit strings and the value is `first-last` exactly |
| RangeExpansion.RangePartsExact | src/nominatim_db/tokenizer/sanitizers/clean_housenumbers.py:38 | `\d+-\d+` fully matches exactly "digits, hyphen, digits", and the split yields those two digit strings (both directions) |
| RangeExpansion.StartOf | src/nominatim_db/tokenizer/sanitizers/clean_housenumbers.py:102-108 | a step keeps the first number; a parity moves it up by at most one, onto the requested parity |
| RangeExpansion.ExpandNumbers | src/nominatim_db/tokenizer/sanitizers/clean_housenumbers.py:102-113 | the expansion raises ZeroDivisionError exactly for step 0 |
| RangeExpansion.PyRange | src/nominatim_db/tokenizer/sanitizers/clean_housenumbers.py:111 | Python's `range` for a positive step: empty exactly when `start >= stop`, every element in `[start, stop)`; PyRangeShape characterises it fully |
| RangeExpansion.ExpandRange | src/nominatim_db/tokenizer/sanitizers/clean_housenumbers.py:99-113 | `_expand_range` on a matched range: raises exactly for step 0; otherwise at most 10 numbers, all between the two bounds as `int` reads them |
| RangeExpansion.PyRangeShape | src/nominatim_db/tokenizer/sanitizers/clean_housenumbers.py:111 | `range(start, stop, step)` is empty exactly when `start >= stop`; element `i` is `start + i*step`; all lie in `[start, stop)`; it is strictly ascending; it stops only when the next element would reach `stop` |
| RangeExpansion.PyRangeBound | src/nominatim_db/tokenizer/sanitizers/clean_housenumbers.py:110-111 | a range spanning at most `n` steps has at most `n` elements |
| RangeExpansion.ExpandShape | src/nominatim_db/tokenizer/sanitizers/clean_housenumbers.py:99-111 | an expansion has at most 10 numbers; it starts at the adjusted first number, ascends strictly by the step, never passes `last`, and reaches the last number the step can reach |
| RangeExpansion.ExpandEmptyIff | src/nominatim_db/tokenizer/sanitizers/clean_housenumbers.py:110-113 | the expansion is empty exactly when the adjusted first number is above `last` or the range spans 10 steps or more |
| RangeExpansion.ExpandParity | src/nominatim_db/tokenizer/sanitizers/clean_housenumbers.py:104-111 | under odd/even every expanded number has the requested parity |
| Splitting.SplitParts | src/nominatim_db/tokenizer/sanitizers/clean_housenumbers.py:92 | the splitter yields at least one piece, and no piece holds a delimiter |
| Splitting.SplitRoundTrip | src/nominatim_db/tokenizer/sanitizers/clean_housenumbers.py:92 | there is one more piece than delimiters, and putting the delimiters back between the pieces restores the value |
| Splitting.SplitConcat | src/nominatim_db/tokenizer/sanitizers/clean_housenumbers.py:92 | the pieces together hold exactly the non-delimiter characters of the value |
| Splitting.SplitAtDelimiter | src/nominatim_db/tokenizer/sanitizers/clean_housenumbers.py:92 | the first piece ends at the first delimiter, and splitting continues after it |
| Splitting.SingleSplit | src/nominatim_db/tokenizer/sanitizers/clean_housenumbers.py:92 | a value without delimiters is one piece |
| Splitting.SanitizeParts | src/nominatim_db/tokenizer/sanitizers/clean_housenumbers.py:92-94 | no more entries than pieces; every entry is a non-empty piece; SanitizePartsAppend shows the pieces are taken one by one, in order |
| Splitting.SanitizePartsAppend | src/nominatim_db/tokenizer/sanitizers/clean_housenumbers.py:92-94 | skipping empty pieces works piece by piece: it distributes over concatenation, so every non-empty piece is kept once and in order |
| Splitting.Regularize | src/nominatim_db/tokenizer/sanitizers/clean_housenumbers.py:96-97 | `_regularize` yields its house number unchanged, exactly once; with SanitizeSingle and SanitizeAtDelimiter this fixes the entries `sanitize` yields |
| Splitting.Sanitize | src/nominatim_db/tokenizer/sanitizers/clean_housenumbers.py:86-94 | `sanitize(value)` yields only non-empty, delimiter-free entries; the lemmas below pin down which |
| Splitting.SanitizeEmpty | src/nominatim_db/tokenizer/sanitizers/clean_housenumbers.py:92-94 | the empty value has no entries |
| Splitting.SanitizeAtDelimiter | src/nominatim_db/tokenizer/sanitizers/clean_housenumbers.py:92-94 | the text before the first delimiter is the first entry unless it is empty, and the entries after it are those of the rest; with SanitizeEmpty and SanitizeSingle this determines every result of `sanitize` |
| Splitting.SanitizePartsConcat | src/nominatim_db/tokenizer/sanitizers/clean_housenumbers.py:92-94 | dropping empty pieces does not change their concatenation |
| Splitting.SanitizeEntries | src/nominatim_db/tokenizer/sanitizers/clean_housenumbers.py:86-97 | every entry is non-empty and delimiter-free; at most one entry more than delimiters; the entries spell the value without its delimiters |
| Splitting.SanitizeSingle | src/nominatim_db/tokenizer/sanitizers/clean_housenumbers.py:86-97 | a non-empty value without delimiters is one entry, unchanged |
| CleanHousenumbers.ProcessItem | src/nominatim_db/tokenizer/sanitizers/clean_housenumbers.py:67-82 | one loop turn raises exactly when the step is 0 and the item is a house-number candidate holding a range |
| CleanHousenumbers.Unexpanded | src/nominatim_db/tokenizer/sanitizers/clean_housenumbers.py:75-79 | a candidate that was not expanded goes either to the names (at most one item) or to the address, never to both |
| CleanHousenumbers.Rebuild | src/nominatim_db/tokenizer/sanitizers/clean_housenumbers.py:65-83 | the loop over the address list; it appends at most one name per item; RebuildAppend, ContributionAt, RaisesIff and RebuildShape state what it builds |
| CleanHousenumbers.Transform | src/nominatim_db/tokenizer/sanitizers/clean_housenumbers.py:50-84 | the record after `__call__`: the old names stay as a prefix, with at most one name added per address item; after a raise the address list is the old one |
| CleanHousenumbers.Call | src/nominatim_db/tokenizer/sanitizers/clean_housenumbers.py:50-84 | the record afterwards is `Transform` of the record before; an empty address leaves the record untouched; a raise leaves the address list as it was; existing names are never removed or reordered |
| CleanHousenumbers.RebuildAddress | src/nominatim_db/tokenizer/sanitizers/clean_housenumbers.py:65-83 | the loop leaves `address` alone, appends to `names` what `Rebuild` appends, returns `Rebuild`'s new address list when nothing raised, and reports exactly when `Rebuild` raises |
| CleanHousenumbers.Turn | src/nominatim_db/tokenizer/sanitizers/clean_housenumbers.py:66-82 | one turn of the loop keeps the invariant that the state is `Rebuild` of the items seen so far, or ends with `Rebuild`'s raise on the whole list |
| CleanHousenumbers.AddItem | src/nominatim_db/tokenizer/sanitizers/clean_housenumbers.py:67-82 | the loop body on one item extends the new address list and the names by exactly `ProcessItem`'s contribution, or reports ZeroDivisionError exactly when `ProcessItem` raises and leaves the names alone |
| CleanHousenumbers.RebuildOkStep | src/nominatim_db/tokenizer/sanitizers/clean_housenumbers.py:66-82 | a turn that does not raise appends the item's contribution to both lists |
| CleanHousenumbers.RaisedAt | src/nominatim_db/tokenizer/sanitizers/clean_housenumbers.py:66-84 | an item that raises after a clean prefix makes the whole loop raise with the prefix's names |
| CleanHousenumbers.RaisedIsFinal | src/nominatim_db/tokenizer/sanitizers/clean_housenumbers.py:66-84 | once an item raised, the items after it are never processed |
| CleanHousenumbers.RebuildAppend | src/nominatim_db/tokenizer/sanitizers/clean_housenumbers.py:65-84 | items are processed independently and in order: rebuilding `a + b` gives the lists of `a` followed by those of `b`, and raises exactly when one part raises |
| CleanHousenumbers.ContributionAt | src/nominatim_db/tokenizer/sanitizers/clean_housenumbers.py:65-84 | each original item's contribution stands at that item's position, between what the items before and after it produced |
| CleanHousenumbers.RaisesIff | src/nominatim_db/tokenizer/sanitizers/clean_housenumbers.py:102-110 | the call raises exactly when the directive is step 0 and some house-number candidate holds a range |
| CleanHousenumbers.ProcessItemShape | src/nominatim_db/tokenizer/sanitizers/clean_housenumbers.py:67-82 | an item contributes itself untouched, or produced house-number items, or a `housenumber` copy of itself to the names when the name matcher accepts it |
| CleanHousenumbers.RebuildShape | src/nominatim_db/tokenizer/sanitizers/clean_housenumbers.py:65-84 | every new address item is an untouched original item or a produced house number; every appended name is a copy of an accepted candidate |
| CleanHousenumbers.NoInterpolationLeft | src/nominatim_db/tokenizer/sanitizers/clean_housenumbers.py:80-82 | after a call that did not raise, no address item has kind `interpolation` |
| CleanHousenumbers.UntouchedOrderKept | src/nominatim_db/tokenizer/sanitizers/clean_housenumbers.py:80-82 | when the kind matcher accepts `housenumber` (as by default), the items that are not candidates and not interpolation items keep their values and their relative order |
| CleanHousenumbers.KeptItem | src/nominatim_db/tokenizer/sanitizers/clean_housenumbers.py:67-82 | one item's contribution holds exactly its untouched part: itself when it is not a candidate or an interpolation item, nothing otherwise |
| CleanHousenumbers.ExpandedItem | src/nominatim_db/tokenizer/sanitizers/clean_housenumbers.py:68-73 | an expanded candidate becomes one `housenumber` item per number, in order, with the other attributes kept; each is named by the canonical decimal string of its number |
| CleanHousenumbers.ReclassifiedItem | src/nominatim_db/tokenizer/sanitizers/clean_housenumbers.py:75-76 | an unexpanded candidate that the name matcher accepts goes to the names once, unsplit, as `housenumber`, and adds nothing to the address |
| CleanHousenumbers.SplitItem | src/nominatim_db/tokenizer/sanitizers/clean_housenumbers.py:77-79 | any other unexpanded candidate becomes one `housenumber` item per entry of `sanitize`, in order, with the other attributes kept; the entries are non-empty and delimiter-free, at most one more than the delimiters, and spell the value without its delimiters; a delimiter-free value stays one unchanged item |
| CleanHousenumbers.OtherItem | src/nominatim_db/tokenizer/sanitizers/clean_housenumbers.py:80-82 | a non-candidate is kept unchanged, unless it is an interpolation item, which is dropped |
| CleanHousenumbers.RegularItemKept | src/nominatim_db/tokenizer/sanitizers/clean_housenumbers.py:67-82 | an item already in the produced form passes through unchanged when there is no directive |
| CleanHousenumbers.RegularRebuild | src/nominatim_db/tokenizer/sanitizers/clean_housenumbers.py:65-84 | a list of such items is rebuilt unchanged, with no names added |
| CleanHousenumbers.RegularInputUnchanged | src/nominatim_db/tokenizer/sanitizers/clean_housenumbers.py:50-84 | a record whose address is already in the produced form is left unchanged |
| CleanHousenumbers.Idempotent | src/nominatim_db/tokenizer/sanitizers/clean_housenumbers.py:50-84 | after a call that did not raise, a second call changes nothing, provided no digit is a delimiter and the name matcher accepts none of the produced house numbers |
| Scenarios.EvenRangeExpands | src/nominatim_db/tokenizer/sanitizers/clean_housenumbers.py:66-73 | `12-16` with interpolation `even` becomes `12`, `14`, `16`, and the interpolation item goes |
| Scenarios.EvenRangeParityCorrected | src/nominatim_db/tokenizer/sanitizers/clean_housenumbers.py:104-108 | `11-16` with `even` also becomes `12`, `14`, `16` |
| Scenarios.LeadingZerosDropped | src/nominatim_db/tokenizer/sanitizers/clean_housenumbers.py:71 | `08-10` with `all` becomes `8`, `9`, `10` |
| Scenarios.LargeRangeKeptWhole | src/nominatim_db/tokenizer/sanitizers/clean_housenumbers.py:110-113 | `1-20` with step `2` spans exactly 10 steps, is not expanded, and stays the single house number `1-20` |
| Scenarios.TenStepsRejected | src/nominatim_db/tokenizer/sanitizers/clean_housenumbers.py:110-113 | with step 1, ten numbers are already rejected and nine are expanded |
| Scenarios.EmptyRangesRejected | src/nominatim_db/tokenizer/sanitizers/clean_housenumbers.py:106-113 | `13-13` under `even` and `16-12` under `all` expand to nothing |
| Scenarios.ExpansionSwitchedOff | src/nominatim_db/tokenizer/sanitizers/clean_housenumbers.py:55 | with `expand-interpolations` off, `12-16` stays one house number |
| Scenarios.ListSplits | src/nominatim_db/tokenizer/sanitizers/clean_housenumbers.py:77-79 | `12;14,16` becomes three house numbers |
| Scenarios.EmptyEntriesDropped | src/nominatim_db/tokenizer/sanitizers/clean_housenumbers.py:92-94 | `12,,14` becomes two house numbers |
| Scenarios.NameLikeValueMoved | src/nominatim_db/tokenizer/sanitizers/clean_housenumbers.py:75-76 | with `convert-to-name` accepting `private`, that value moves to the names and the street item stays |
| Scenarios.ZeroStepRaises | src/nominatim_db/tokenizer/sanitizers/clean_housenumbers.py:110 | interpolation `0` next to a range raises, and the address list is left as it was |

## Left out

- The sanitizer configuration (lines 44-48). This covers `get_filter`, `get_delimiter` and `get_bool`, the compilation of the kind and name patterns, and the `FAIL_ALL` sentinel. The model takes the resolved matchers, the delimiter set and the flag as `Config`. `SanitizerConfig` is not part of this model.
- The splitter regular expression built by `get_delimiter`. The model splits at single delimiter characters. Any whitespace handling of the real pattern is not modelled. Runs of delimiters only produce empty pieces, which `sanitize` drops anyway.
- Unicode digits. `\d` and `str.isdigit()` accept non-ASCII digits in Python, and `int()` accepts the decimal ones among them. The model covers the ASCII digits `0`-`9` only. It therefore does not model the ValueError of line 61 for a one-character interpolation value such as `²`, which `isdigit()` accepts at line 60 and `int()` rejects.
- Float division at line 110. The exact integer comparison stands in for it. Since a step is at most 9, the correctly rounded quotient of Python's true division is below 10 exactly when the exact one is, so rounding never changes the test. Not modelled is the OverflowError that the true division raises when the quotient exceeds the float range (for example `1-` followed by a 310-digit number under `all`); the model rejects such a range and keeps it as one house number.
- Subclass overrides of `_regularize` (line 96). The model fixes it to the identity.
- `create` (lines 116-120), a factory that only constructs the sanitizer.
- `PlaceName` and `ProcessInfo` beyond `kind`, `name`, `address` and `names`. All other attributes are an opaque map that the item update keeps.
- Concurrency and aliasing of the record. `Call` works on one `ProcessInfo` object that nothing else touches during the call.
