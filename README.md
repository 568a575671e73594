# A Dafny model of the scanzo receipt extraction engine

This project models the part of the scanzo receipt scanner that turns the
OCR text of a French till receipt into amounts. The text is first
normalised: no-break spaces become spaces, `€` is padded, glued amounts
such as `30,003,00` are split, and every line is stripped. Then seven
independent rules each propose a reading of the totals (HT, TVA, TTC) and of
the VAT rows:

- a parenthetical VAT line;
- a VAT table in columns;
- amounts printed one per line under their labels;
- a free VAT line with an outlier filter and a minimum-penalty triplet search;
- explicit TOTAL lines;
- a lone TTC;
- the amount after a payment keyword.

A merger then combines the candidates into one result. Its base is the
candidate that has a TTC and the highest confidence. Its missing totals are
back-filled in descending confidence order. The rows of all candidates are
de-duplicated on their amounts. A missing total is derived from the other
two. The confidence is the largest one, capped at 1.0, and the notes are
the union of all notes. The extraction service adds the vendor and the date
read from the same text.

The project also models the legacy validation path that checks the JSON
answer of the language-model OCR service. It covers the pydantic `Receipt`
and `TaxLine` records with their validators, the `TaxSummary` of
`models/tax.py`, and the dictionary helpers of
`services/document_processor.py`.

How the model is built:

- **Amounts** are whole numbers of cents, because every amount leaving
  `to_dec` or `quant2` is a two-decimal `Decimal`.
- **Rates, ratios, medians, confidences and the floats of the legacy path**
  are reals. `ROUND_HALF_UP` and the half-even `quantize` and `round` are
  written out.
- **Regular expressions** are deterministic scanners. Each is shaped after
  the way Python's backtracking engine settles that pattern.
- **Exceptions** are `Failure` values of a `Result`. They cover the
  `ValueError` and `InvalidOperation` of `to_dec`, pydantic validation
  errors, and `.get` on a value that is not a dictionary.
- **Code that works by loops** is a `method` proved equal to a
  specification function. The properties are proved as lemmas about that
  function. This covers the merger, the table and vertical rules, the
  triplet search, the extraction pass, the vendor loop, `_to_decimal`,
  `snap_rate`, the scorer and the tax-line parsers.
- **Objects whose fields are updated in place** are classes:
  `Receipt.validate_receipt` and `TaxSummary.calculate_totals`.

## Behaviour worth knowing

Some behaviour of the code is easy to miss, or contradicts the code's own
comments. The model follows the code:

- **Unparsable numbers raise.** Every rule except the vertical one lets the
  exception of `to_dec` escape, so `ExtractionService.extract` raises. The
  inline-any rule never reaches a failing `to_dec`
  (`TvaInlineAny.AmountTokenReads`).
- **Coherence and confidence.** `ExtractionService.extract` sets
  `coherent=True` unconditionally and takes the merged confidence, capped at
  1.0. `core/models/confidence.py` is not called from the pipeline; it is
  modelled on its own (`Confidence`).
- **Duplicate rows.** The merger's de-duplication key ignores the rate, so
  rows differing only in rate collapse to the first (`Merger.RateIgnored`).
- **Rule order.** `get_amount_rules` lists the rules in an order that is not
  the order of their `priority` constants, and the numbers in the
  registry's import comments (`core/parsing/rule_registry.py:2-8`) are yet
  another order (`RuleRegistry.OrderIsNotPriority`). Nothing reads
  `priority`.
- **Vendor lines.** The comment in `extract_vendor`
  (`core/parsing/vendor_extractor.py:10`) speaks of the first eight lines, but the
  code reads the first twelve.

## Model

| member | source | states |
|---|---|---|
| Strings.Strip | core/text/normalizer.py:18 | `str.strip()`: the slice left after the leading and the trailing whitespace; it neither starts nor ends with whitespace, and it is empty exactly when the text is all whitespace |
| Strings.SplitLines | core/text/normalizer.py:18 | `str.splitlines()`: no line holds a line boundary, and the empty text has no lines |
| Strings.StripAll | core/text/normalizer.py:18 | every line stripped, one output line per input line |
| Strings.ReplaceChar | core/text/normalizer.py:15 | `replace` of one character by another: the same length, every occurrence replaced and every other character kept |
| Strings.StripFree | core/text/normalizer.py:18 | stripping introduces no character |
| Normalizer.PadEuroPadded | core/text/normalizer.py:15 | after `replace("€", " € ")`, every euro sign has a space on each side |
| Normalizer.PadEuroFree | core/text/normalizer.py:15 | padding the euro signs introduces no character other than the space |
| Normalizer.Unglue | core/text/normalizer.py:9 | `_RE_GLUED_AMOUNTS.sub(r"\1 ", s)`: empty stays empty and the first character is kept |
| Normalizer.UnglueNoGlued | core/text/normalizer.py:9 | after the first substitution no two decimals are directly followed by a digit |
| Normalizer.UnglueHead | core/text/normalizer.py:9 | the substitution never shortens the text, leaves its first three characters (four when no fraction is glued at the start) and texts under four characters alone |
| Normalizer.UnglueInsertsSpaces | core/text/normalizer.py:9 | the substitution only inserts spaces: removing the inserted spaces gives back the input |
| Normalizer.SpacesInsertedCopy | core/text/normalizer.py:9 | inserting spaces is preserved under a common prefix |
| Normalizer.UnglueFree | core/text/normalizer.py:9 | the substitution introduces no character other than the space |
| Normalizer.UnglueExample | core/text/normalizer.py:10 | `30,003,00` becomes `30,00 3,00` |
| Normalizer.AmountEnd | core/text/normalizer.py:5 | `\d{1,8}[.,]\d{2}` from i: a match ends after a point or comma and two digits |
| Normalizer.MultiAt | core/text/normalizer.py:5 | a match of `_RE_MULTI_AMOUNTS` that another amount follows ends inside the text |
| Normalizer.SplitAmountsNoMatch | core/text/normalizer.py:11 | once no fraction is glued to a digit, the second substitution changes nothing: it can only fire where the first already did |
| Normalizer.FixGluedAmounts | core/text/normalizer.py:7-12 | `_fix_glued_amounts` is the first substitution alone; its result has no glued fraction and differs from its input only by inserted spaces |
| Normalizer.SplitLinesFree | core/text/normalizer.py:18 | splitting into lines introduces no character |
| Normalizer.JoinLinesFree | core/text/normalizer.py:18 | joining with `\n` introduces no character other than the line feed |
| Normalizer.NormalizeNoNbsp | core/text/normalizer.py:14-18 | the normalised text holds no no-break space |
| Normalizer.OutLinesStripped | core/text/normalizer.py:18 | every output line holds no line boundary and neither starts nor ends with whitespace |
| Normalizer.StrippedLinesClean | core/text/normalizer.py:18 | for any text, every line of `[l.strip() for l in text.splitlines()]` holds no line boundary and neither starts nor ends with whitespace |
| Normalizer.StripNoBreaks | core/text/normalizer.py:18 | stripping a line without boundaries keeps it without boundaries |
| Normalizer.LineEndJoin | core/text/normalizer.py:18 | in a text joined with `\n`, the first line ends where the first joined line ends |
| Normalizer.LineEndAt | core/text/normalizer.py:18 | a line ends at the first line boundary |
| Normalizer.LineEndWhole | core/text/normalizer.py:18 | a line without boundary runs to the end of the text |
| Normalizer.SplitJoin | core/text/normalizer.py:18 | `splitlines` undoes `"\n".join` of lines without boundaries whose last line is not empty |
| Normalizer.ConsLines | core/text/normalizer.py:18 | a leading character adds one boundary when it is a line boundary, except that `\r` before `\n` forms one boundary with it; it decides the open end only of a one-character text |
| Normalizer.BreaksSkip | core/text/normalizer.py:18 | characters that are not line boundaries add no boundary and do not change how the text ends |
| Normalizer.SplitLinesCount | core/text/normalizer.py:18 | `splitlines` gives one line per boundary (`\r\n` counted once), plus one when the text does not end on a boundary |
| Normalizer.BreakAt | core/text/normalizer.py:18 | a boundary counts once, a `\r\n` pair included, and the text after it decides whether the text ends inside a line |
| Normalizer.SameBreaks | core/text/normalizer.py:15 | two texts with boundaries, `\r` and `\n` at the same places have the same line count |
| Normalizer.ReplaceNbspLines | core/text/normalizer.py:15 | replacing NBSP by a space keeps the line count |
| Normalizer.PadEuroLines | core/text/normalizer.py:15 | padding `€` with spaces keeps the boundaries and how the text ends |
| Normalizer.PadEuroAtEuro | core/text/normalizer.py:15 | a `€` replaced by ` € ` adds no boundary |
| Normalizer.PadEuroAtOther | core/text/normalizer.py:15 | a character other than `€` is kept, so the boundary it starts is kept |
| Normalizer.UnglueLines | core/text/normalizer.py:9 | the space inserted after a glued fraction keeps the boundaries and how the text ends |
| Normalizer.PreparedLineCount | core/text/normalizer.py:15-16 | the replacements and `_fix_glued_amounts` keep `len(text.splitlines())` of the raw text |
| Normalizer.JoinLinesCount | core/text/normalizer.py:18 | `"\n".join` of lines without boundaries has one boundary between each two lines, and does not end on a boundary exactly when its last line is not empty |
| Normalizer.NormalizeLineCount | core/text/normalizer.py:14-18 | one stripped line per line of `raw.splitlines()`; the normalised text has as many lines as the raw text, one fewer when the last stripped line is empty |
| Normalizer.BlankLastLine | core/text/normalizer.py:18 | a blank last line is lost: `a\n ` has two lines and normalises to `a\n`, which has one |
| Normalizer.SplitBlank | core/text/normalizer.py:18 | `a\n ` splits into `a` and a blank line |
| Normalizer.PreparedBlank | core/text/normalizer.py:15-17 | the replacements and the substitutions leave `a\n ` unchanged |
| Normalizer.OutLinesBlank | core/text/normalizer.py:18 | the blank line strips to the empty line |
| Normalizer.StripBlank | core/text/normalizer.py:18 | a blank strips to empty, a single letter is kept |
| Normalizer.SplitOutBlank | core/text/normalizer.py:18 | `a` and an empty line join to `a\n`, which splits to the single line `a` |
| Normalizer.PadEuroBlank | core/text/normalizer.py:15 | a text without euro sign is not padded |
| Normalizer.UnglueBlank | core/text/normalizer.py:9 | a text without digits is not changed by the substitution |
| Cleaner.LastBreak | core/text/cleaner.py:8 | the last line feed strictly between two positions, or none there |
| Cleaner.TrimHead | core/text/cleaner.py:8 | `re.sub(r"\s+\n", "\n", t)` empties only the empty text, and starts the result with a line feed only when the leading whitespace holds one |
| Cleaner.TrimNoSpace | core/text/cleaner.py:8 | after the substitution no whitespace precedes a line feed |
| Cleaner.LeadEndShift | core/text/cleaner.py:8 | dropping part of the leading whitespace moves its end accordingly |
| Cleaner.LeadEndUnique | core/text/cleaner.py:8 | the end of a whitespace run is the first non-whitespace position |
| Cleaner.TrimIdentity | core/text/cleaner.py:8 | a text with no whitespace before a line feed is left unchanged by the substitution |
| Cleaner.BreakRunEnd | core/text/cleaner.py:9 | the end of the run of line feeds from i |
| Cleaner.CollapseHead | core/text/cleaner.py:9 | `re.sub(r"\n+", "\n", t)` empties only the empty text and keeps whether it starts with a line feed |
| Cleaner.CollapseNoDouble | core/text/cleaner.py:9 | after it no two line feeds are adjacent |
| Cleaner.CollapseIdentity | core/text/cleaner.py:9 | a text without adjacent line feeds is left unchanged |
| Cleaner.SliceNoSpace | core/text/cleaner.py:10 | a slice of a text with no whitespace before a line feed has none either |
| Cleaner.TrimFree | core/text/cleaner.py:8 | the first substitution introduces no character other than the line feed |
| Cleaner.CollapseFree | core/text/cleaner.py:9 | the second substitution introduces no character other than the line feed |
| Cleaner.ReplaceFree | core/text/cleaner.py:6-7 | a replaced character is gone |
| Cleaner.ReplaceKeepsFree | core/text/cleaner.py:6-7 | a replacement introduces no character other than its replacement |
| Cleaner.ProcessClean | core/text/cleaner.py:4-10 | `process` removes every ideographic full stop and no-break space, leaves no whitespace before a line feed, no two adjacent line feeds, and no whitespace at either end |
| Cleaner.ReplacedFree | core/text/cleaner.py:6-7 | after both replacements neither character is left |
| Cleaner.TrimmedClean | core/text/cleaner.py:8-9 | after the first substitution there is nothing left for the second to collapse |
| Cleaner.StrippedClean | core/text/cleaner.py:10 | the final strip keeps every property and leaves no adjacent line feeds |
| Cleaner.ProcessIdempotent | core/text/cleaner.py:4-10 | cleaning a cleaned text changes nothing |
| Cleaner.InkAppend | core/text/cleaner.py:4-10 | the non-whitespace characters of a concatenation are those of its parts |
| Cleaner.InkBlank | core/text/cleaner.py:4-10 | whitespace has no such characters |
| Cleaner.TrimInk | core/text/cleaner.py:8 | the first substitution removes whitespace only |
| Cleaner.StripInk | core/text/cleaner.py:10 | the strip removes whitespace only |
| Cleaner.InkSlice | core/text/cleaner.py:10 | cutting whitespace off both ends keeps the non-whitespace characters |
| Cleaner.InkBlankPrefix | core/text/cleaner.py:10 | cutting leading whitespace keeps the non-whitespace characters, in order |
| Cleaner.InkBlankSuffix | core/text/cleaner.py:10 | cutting trailing whitespace keeps the non-whitespace characters, in order |
| Cleaner.ReplaceSpaceInk | core/text/cleaner.py:7 | turning no-break spaces into spaces keeps the non-whitespace characters, in order |
| Cleaner.ProcessInk | core/text/cleaner.py:4-10 | `process` keeps every non-whitespace character, in order, except the ideographic full stops it turns into spaces |
| Cleaner.ProcessExample | core/text/cleaner.py:8 | `a \n b` becomes `a\n b`: the whitespace after the line feed stays |
| Cleaner.ExampleRun | core/text/cleaner.py:8 | leading whitespace before a line feed is removed |
| Cleaner.ExampleIndent | core/text/cleaner.py:8 | an indentation without line feed is kept |
| BaseRule.RoundHalfUp | core/parsing/rules/base_rule.py:13-14 | the whole number nearest to x, a tie going away from zero (the bounds of `ROUND_HALF_UP` on each side of zero) |
| BaseRule.RoundHalfUpUnique | core/parsing/rules/base_rule.py:13-14 | any integer within half of x, a tie on the side away from zero, is `RoundHalfUp(x)`: the `ROUND_HALF_UP` bounds determine the rounding |
| BaseRule.RoundHalfUpOdd | core/parsing/rules/base_rule.py:13-14 | half-up rounding is symmetric: rounding -x gives minus the rounding of x |
| BaseRule.RoundHalfUpWhole | core/parsing/rules/base_rule.py:13-14 | a whole number rounds to itself |
| BaseRule.RoundHalfEven | core/parsing/rules/base_rule.py:76-79 | the nearest whole number, a tie going to the even neighbour (what `quantize` does without a rounding argument) |
| BaseRule.Q2 | core/parsing/rules/base_rule.py:13-14 | `q2`: the amount in cents within half a cent of x, ties away from zero |
| BaseRule.Quant2 | core/parsing/rules/base_rule.py:100-105 | `quant2`: missing stays missing, a value is quantised to cents by `q2` |
| BaseRule.Q2OfMoney | core/parsing/rules/base_rule.py:100-105 | quantising an amount already in cents changes nothing |
| BaseRule.Round1 | core/parsing/rules/base_rule.py:35 | a rate rounded half-up to 0.1 is within 0.05 of the rate |
| BaseRule.Round1OnGrid | core/parsing/rules/base_rule.py:35 | a rate already on the 0.1 grid is kept |
| BaseRule.Kept | core/parsing/rules/base_rule.py:88-93 | the characters kept by the loop of `_to_decimal` are digits, `-`, `.` or `,`, and there are no more of them than input characters |
| BaseRule.KeptAppend | core/parsing/rules/base_rule.py:88-93 | the loop keeps characters one at a time: the kept characters of a concatenation are the concatenation of the kept characters |
| BaseRule.KeptNone | core/parsing/rules/base_rule.py:88-93 | a text without digits, signs, points or commas keeps nothing |
| BaseRule.KeptAll | core/parsing/rules/base_rule.py:88-93 | a text made only of kept characters is kept whole |
| BaseRule.KeptReplace | core/parsing/rules/base_rule.py:87 | replacing one dropped character by another does not change what is kept |
| BaseRule.SpaceNotKept | core/parsing/rules/base_rule.py:90-93 | whitespace is never kept |
| BaseRule.KeptStrip | core/parsing/rules/base_rule.py:85 | stripping the text does not change what is kept |
| BaseRule.KeptPrepared | core/parsing/rules/base_rule.py:85-87 | the strip and the replacement of the no-break spaces do not change what is kept |
| BaseRule.FracValue | core/parsing/rules/base_rule.py:97 | digits read after a point lie in [0, 1) |
| BaseRule.FracValueCents | core/parsing/rules/base_rule.py:97 | at most two fraction digits are exactly that many cents (one digit counting ten) |
| BaseRule.PointIndex | core/parsing/rules/base_rule.py:97 | the position of the first point, with no point before it |
| BaseRule.ParseDecimal | core/parsing/rules/base_rule.py:95-97 | `Decimal` of the joined characters refuses a text that is at most a sign and a point |
| BaseRule.BareListed | core/parsing/rules/base_rule.py:95-96 | the refused texts are exactly `""`, `"-"`, `"."` and `"-."` |
| BaseRule.KeepNumberChars | core/parsing/rules/base_rule.py:88-93 | the character loop returns exactly the kept characters |
| BaseRule.ToDecimal | core/parsing/rules/base_rule.py:84-97 | `_to_decimal` returns the decimal value of the kept characters with commas turned into points, or raises |
| BaseRule.ToDec | core/parsing/rules/base_rule.py:108-109 | `to_dec` succeeds exactly when `_to_decimal` does, and then lies within half a cent of its value |
| BaseRule.NatToDigitsValue | core/parsing/rules/base_rule.py:97 | the digits printed for n read back as n |
| BaseRule.PointAfterDigits | core/parsing/rules/base_rule.py:97 | in digits, a point and more text, the first point is the one after the digits |
| BaseRule.UnsignedDigitsPointDigits | core/parsing/rules/base_rule.py:97 | digits, a point and digits are read as their fixed-point value |
| BaseRule.DecimalOfPlain | core/parsing/rules/base_rule.py:84-97 | a text of digits, points and minus signs reaches `Decimal` unchanged |
| BaseRule.FractionDigits | core/parsing/rules/base_rule.py:97 | the whole part and two fraction digits of an amount read back as the amount |
| BaseRule.FormatMoneyPlain | core/parsing/rules/base_rule.py:90-91 | a printed amount holds only digits, a minus sign and a point |
| BaseRule.DecimalOfFormatMoneyIsParse | core/parsing/rules/base_rule.py:84-97 | a printed amount reaches `Decimal` unchanged |
| BaseRule.ParseFormatMoney | core/parsing/rules/base_rule.py:97 | `Decimal` reads a printed amount as its value |
| BaseRule.UnsignedMoneyBody | core/parsing/rules/base_rule.py:97 | the unsigned digits of an amount are read as its value |
| BaseRule.DecimalOfFormatMoney | core/parsing/rules/base_rule.py:84-97 | `_to_decimal` reads back every printed amount exactly |
| BaseRule.ParseSigned | core/parsing/rules/base_rule.py:97 | a leading minus negates the value read |
| BaseRule.ToDecFormatMoney | core/parsing/rules/base_rule.py:108-109 | round trip: `to_dec` of a printed amount is that amount |
| BaseRule.ToDecPrinted | core/parsing/rules/base_rule.py:84-109 | any text whose kept characters spell a printed amount reads as that amount |
| BaseRule.KeptTrailingSpace | core/parsing/rules/base_rule.py:92-93 | trailing whitespace is dropped |
| BaseRule.ToDecThousandsSeparator | core/parsing/rules/base_rule.py:94-97 | "1.234,56" becomes "1.234.56", which `Decimal` refuses: `to_dec` raises on a thousands separator |
| BaseRule.KeptSpacedAmount | core/parsing/rules/base_rule.py:88-93 | "1 234,56 €" keeps "1234,56" |
| BaseRule.FormatSpacedAmount | core/parsing/rules/base_rule.py:97 | 1234.56 is printed "1234.56" |
| BaseRule.ToDecSpacedAmount | core/parsing/rules/base_rule.py:84-109 | "1 234,56 €" reads as 1234.56: spaces, the currency sign and the decimal comma are handled |
| BaseRule.DecimalOfUnsigned | core/parsing/rules/base_rule.py:94-97 | digits, points and commas starting with a digit reach `Decimal` with the commas turned into points |
| BaseRule.DecimalOfDigitsPointDigits | core/parsing/rules/base_rule.py:84-97 | digits, a point or a comma, and digits are read as their fixed-point value |
| BaseRule.DecimalOfDigits | core/parsing/rules/base_rule.py:84-97 | a run of digits is read as its whole value |
| BaseRule.UnsignedDigits | core/parsing/rules/base_rule.py:97 | `Decimal` reads a run of digits as its whole value |
| BaseRule.FixedPointCents | core/parsing/rules/base_rule.py:100-109 | with at most two fraction digits a number is a whole number of cents, which `quant2` keeps |
| BaseRule.ComputeRateFromAmounts | core/parsing/rules/base_rule.py:17-21 | a rate exactly when both amounts are known and the base is positive; it is 100·tva/base to within half a hundredth, and a whole number of hundredths, as `float(q2(...))` gives |
| BaseRule.SnapFromCanon | core/parsing/rules/base_rule.py:30-35 | the loop over the canonical rates returns the first of 5.5, 10, 20 within 0.3, else the rate rounded to 0.1 |
| BaseRule.Snapped | core/parsing/rules/base_rule.py:24-35 | `snap_rate`: missing stays missing; near a canonical rate it becomes that rate (within 0.3), otherwise it is rounded to 0.1; the result is always on the 0.1 grid |
| BaseRule.SnapRate | core/parsing/rules/base_rule.py:24-35 | the loop with its early return computes `Snapped` |
| BaseRule.SnapToCanon | core/parsing/rules/base_rule.py:30-32 | a rate within 0.3 of a canonical rate snaps to it |
| BaseRule.FractionToPercent | core/parsing/rules/base_rule.py:64-65 | a rate in (0, 1.5] is scaled by 100, any other is kept |
| BaseRule.NormalizeRate | core/parsing/rules/base_rule.py:38-71 | `normalize_rate`: no rate only when none can be derived from the amounts; a rate is always on the 0.1 grid; each branch's result is stated by `NormalizeMissingRate`, `NormalizeAmountLikeRate`, `NormalizeFraction`, `NormalizeAberrantRate` and `NormalizePlainRate` |
| BaseRule.NormalizeMissingRate | core/parsing/rules/base_rule.py:47-50 | a missing rate is the snapped rate derived from the amounts |
| BaseRule.NormalizeAmountLikeRate | core/parsing/rules/base_rule.py:57-61 | a "rate" within 0.05 of the base or the tax read is replaced by the derived rate |
| BaseRule.NormalizeFraction | core/parsing/rules/base_rule.py:63-71 | a fraction below 0.6 is read as that many hundredths |
| BaseRule.NormalizeTenthIsTenPercent | core/parsing/rules/base_rule.py:63-71 | 0.1 becomes 10 % |
| BaseRule.NormalizeAberrantRate | core/parsing/rules/base_rule.py:67-69 | a rate at or below 0 or at or above 60 % falls back to the derived rate |
| BaseRule.NormalizePlainRate | core/parsing/rules/base_rule.py:59-71 | a printed rate in (1.5, 60) more than 0.05 from both the TVA and the HT amount read is kept and only snapped to the canonical rates: `snap_rate(float(d))` |
| BaseRule.TaxrowSignature | core/parsing/rules/base_rule.py:74-81 | the rate to within half a hundredth (missing kept missing) and the three amounts, already in cents, as they are |
| BaseRule.FixTtc | core/parsing/rules/base_rule.py:130-145 | `fix_ttc`: with HT and TVA both are kept and TTC becomes their sum unless it was within 0.02 of it; with HT and TTC only, TVA = TTC − HT; with TVA and TTC only, HT = TTC − TVA; with fewer than two nothing changes; with two or more the result is balanced |
| BaseRule.FixTtcIdempotent | core/parsing/rules/base_rule.py:130-145 | a balanced triple is left alone, and fixing twice changes nothing more |
| Patterns.SkipSpaces | core/parsing/rules/total_ttc.py:9 | `\s*`: the end of the whitespace run from p; everything skipped is whitespace and the next character is not |
| Patterns.NumRunEnd | core/parsing/rules/total_ttc.py:9 | `[\d\s.,]*`: the end of the longest run of digits, whitespace, points and commas from p; the character after it is none of these |
| Patterns.NumberEnd | core/parsing/rules/total_ttc.py:9 | `([\-]?\d[\d\s.,]*)` from a start: the amount runs past its head (an optional minus and a digit) to the first character that is not a digit, whitespace, point or comma |
| Patterns.LazyNumber | core/parsing/rules/total_ttc.py:9 | `.*?` followed by an amount: the earliest position from p, not across a newline, at which an amount starts; no earlier position on the line starts one |
| Patterns.RateRunEnd | core/parsing/rules/tva_parenthetical.py:14 | the run of `[0-9.,]` from p, ending at a character outside the run |
| Patterns.DigitRunEnd | core/parsing/rules/tva_parenthetical.py:14 | the run of digits from p, ending at a non-digit |
| Patterns.RateValue | core/parsing/rules/tva_parenthetical.py:21 | `float(token.replace(",", "."))` of a rate token of one or two digits and at most two decimals lies in [0, 100) |
| Patterns.TwoDigitsBelow100 | core/parsing/rules/tva_parenthetical.py:14 | a number of at most two digits is below 100 |
| Patterns.RateParts | core/parsing/rules/tva_parenthetical.py:14 | `[0-9]{1,2}(?:[.,][0-9]{1,2})?` matched on a whole token: a success splits the token exactly into its whole digits, a point or comma, and its decimals |
| Patterns.RateAt | core/parsing/rules/tva_parenthetical.py:14 | a rate followed by `%`: the token is the whole `[0-9.,]` run from p and has the rate's shape |
| Patterns.GreedyRate | core/parsing/rules/tva_inline_any.py:11 | the rate group with nothing required after it, from a digit: a token of rate shape that `RateParts` splits back into the same rate |
| Patterns.RatePartsWhole | core/parsing/rules/tva_inline_any.py:11 | one or two digits alone split into a rate with no fraction |
| Patterns.RatePartsFrac | core/parsing/rules/tva_inline_any.py:11 | one or two digits, a `.` or `,` and one or two digits split into the two digit groups, the separator dropped |
| Patterns.DigitRunPrefix | core/parsing/rules/tva_parenthetical.py:14 | when the first w characters are digits and the next is not, the digit run from 0 ends at w |
| Patterns.DigitRunFrom | core/parsing/rules/tva_parenthetical.py:14 | when the characters from p up to w are digits and the one at w is not (or w is the end), the digit run from p ends at w |
| Patterns.FirstCI | core/parsing/rules/totals_line.py:14-16 | the earliest position from p where a literal matches case-insensitively with the `\b` asked for on each side; no earlier position matches |
| Patterns.CurrencyThen | core/parsing/rules/tva_parenthetical.py:14 | `\s*(?:€|eur|euros?)?\s*` then a literal: a success is a position from p at which the literal matches |
| Patterns.SeparatorEnd | core/parsing/rules/payment_total.py:13 | `\s*[:\-]?\s*`: a position from p after which no whitespace follows |
| Patterns.OptDot | core/parsing/rules/total_ttc.py:9 | `\.?`: at most one character is consumed |
| Patterns.DotBoundary | core/parsing/rules/total_ttc.py:9 | `\.?\b`: the dot is consumed only when a word boundary follows it; the position returned is at a word boundary |
| Patterns.TtcWord | core/parsing/rules/total_ttc.py:9 | `t\.?\s*t\.?\s*c\.?\b`: a match starts with a `t`, spans at least three characters and ends at a word boundary |
| Patterns.Captured | core/parsing/rules/total_ttc.py:9 | the captured amount is not empty and starts with a digit or a minus |
| Patterns.FirstMatchFound | core/parsing/rules/payment_total.py:16 | `re.search` tries the positions from i in turn: what it finds is the attempt at some position from i, and it finds nothing exactly when the attempt fails at every position from i to the end |
| Patterns.FirstMatchLeftmost | core/parsing/rules/payment_total.py:16 | when p is the leftmost position from i at which the attempt matches, `re.search` returns the attempt at p |
| Confidence.Coherent | core/models/confidence.py:1-16 | `coherent`: false without a TTC; true when HT plus TVA is within eps of the TTC, or, with rows, when the rows' sum (each row's TTC, or else its HT plus its TVA, missing parts counting 0) is within eps of it; false otherwise |
| Confidence.RowsTotalAppend | core/models/confidence.py:8-13 | the rows' sum is additive over a split of the rows |
| Confidence.RowsTotalOfTtcs | core/models/confidence.py:8-13 | when every row has a TTC, the sum is the sum of the TTCs, whatever the rows' HT and TVA |
| Confidence.CoherentCases | core/models/confidence.py:1-16 | never coherent without a TTC; always coherent with balanced totals; with a TTC but without HT or TVA, coherent exactly when the rows exist and sum to within eps of it |
| Confidence.Proxy | core/models/confidence.py:19-31 | `confidence_proxy` lies in [0, 1] and is 1 exactly when the weights of the present fields plus the coherence bonus reach 1 |
| Confidence.WeightsSumToOne | core/models/confidence.py:20 | the six field weights add up to exactly 1.0 |
| Confidence.ConfidenceProxy | core/models/confidence.py:19-31 | the successive additions, the coherence test and the cap compute `Proxy` |
| Confidence.ProxyExtremes | core/models/confidence.py:19-31 | a document with every field present scores 1, one with none scores 0, and one without TTC at most 0.75 |
| Sorting.InsertDescPerm | core/parsing/merger.py:26 | inserting into the sorted order adds exactly the inserted element |
| Sorting.InsertDescSorted | core/parsing/merger.py:26 | inserting into a descending sequence keeps it descending |
| Sorting.InsertDescStable | core/parsing/merger.py:26 | inserting keeps the relative order of equal keys: the element goes before its equals already present, as if it had been first in the list, which is what makes `SortDesc` stable |
| Sorting.WithKeyCons | core/parsing/merger.py:26 | the elements of one key in a sequence with a head |
| Sorting.SortDescProperties | core/parsing/merger.py:26 | `sorted(..., reverse=True)`: descending, a permutation of its input, and stable (the elements of each key keep their order) |
| Merger.QuantAmount | core/parsing/merger.py:8 | `quant2` leaves an amount already in cents unchanged, and a missing one missing |
| Merger.KeysOfSnoc | core/parsing/merger.py:9-10 | adding a row adds its key to the `seen` set |
| Merger.DedupRows | core/parsing/merger.py:4-12 | `_dedup_rows` with its `seen` set and its loop computes `Deduped` |
| Merger.FirstWithKeyFound | core/parsing/merger.py:4-12 | some row has a key exactly when the key occurs in the rows, and the row found has that key |
| Merger.DedupedProperties | core/parsing/merger.py:4-12 | the kept rows have pairwise different keys, the same set of keys as the input, and each is, amounts quantised, the first input row of its key |
| Merger.DedupedPrefix | core/parsing/merger.py:4-12 | de-duplication runs in order: the rows kept from a prefix start the rows kept from the whole |
| Merger.RateIgnored | core/parsing/merger.py:8 | two rows differing only in their rate are duplicates: the second is dropped |
| Merger.BestIsFirstMaximum | core/parsing/merger.py:19 | `max(results, key=...)` is the first candidate that no candidate outranks on `(has TTC, confidence)` |
| Merger.BaseWithoutTtc | core/parsing/merger.py:19 | the base lacks a TTC only when every candidate does |
| Merger.ByConfidenceProperties | core/parsing/merger.py:26 | the backfill order is by decreasing confidence, a permutation of the candidates, stable among equal confidences |
| Merger.FirstAmountIsFirst | core/parsing/merger.py:27-32 | the amount filled in is that of the first candidate having one, and there is none when no candidate has one |
| Merger.FirstAmountSnoc | core/parsing/merger.py:27-32 | one more candidate in the loop fills an amount only when it is still missing |
| Merger.Complete | core/parsing/merger.py:39-44 | a known total is never changed; a missing one is derived exactly when the other two are known (HT = TTC - TVA, TTC = HT + TVA, TVA = TTC - HT); from two known totals the three balance; with fewer nothing changes |
| Merger.MaxConfidence | core/parsing/merger.py:46 | the largest confidence: at least every candidate's and equal to one of them |
| Merger.AllNotes | core/parsing/merger.py:47 | a note is kept exactly when some candidate has it |
| Merger.Backfill | core/parsing/merger.py:20-34 | the loop over the sorted candidates fills each missing total from the first candidate that has it, and appends every candidate's rows to the base's rows |
| Merger.FillStep | core/parsing/merger.py:27-32 | one iteration of the loop on the totals |
| Merger.DetailsStep | core/parsing/merger.py:33-34 | one iteration of the loop on the rows |
| Merger.Merge | core/parsing/merger.py:15-51 | `merge`: nothing without candidates; otherwise the base's totals filled in confidence order then completed, the rows of all candidates de-duplicated, the largest confidence capped at 1, the union of the notes (what `Merged` defines and the lemmas below characterise) |
| Merger.MergedTotals | core/parsing/merger.py:19-34 | a total of the base is the merged total; a missing one is filled from the first candidate, by confidence, that has it |
| Merger.MergedNone | core/parsing/merger.py:16-17 | there is no merged result exactly when there are no candidates |
| Merger.MergedRows | core/parsing/merger.py:23-36 | the merged rows have pairwise different keys, exactly the keys of all candidates' rows, and start with the base's own rows de-duplicated |
| Merger.MergedConfidence | core/parsing/merger.py:46 | the merged confidence is at most 1, at least every candidate's capped at 1, and is 1 or some candidate's confidence |
| Merger.MergedNotes | core/parsing/merger.py:47 | the merged notes are exactly the candidates' notes |
| PaymentTotal.KeywordEnd | core/parsing/rules/payment_total.py:13 | an alternative of the payment keywords, matched case-insensitively at i, ends at least two characters further |
| PaymentTotal.KeywordsFrom | core/parsing/rules/payment_total.py:13 | the alternatives tried in order: the first one followed by `\b`, the separator and an amount gives where that amount starts, after the keyword |
| PaymentTotal.MatchAt | core/parsing/rules/payment_total.py:13 | one attempt of the pattern at i: it needs a word boundary at i and gives the start of the amount |
| PaymentTotal.Search | core/parsing/rules/payment_total.py:16 | `_re.search`: `FirstMatch` over the attempts at i, i+1, …, |s|; the amount it finds starts an amount |
| PaymentTotal.SearchLeftmost | core/parsing/rules/payment_total.py:16 | `_re.search` returns the leftmost match: the match at p when no position from i up to p matches |
| PaymentTotal.Apply | core/parsing/rules/payment_total.py:15-21 | no match gives no result; a match whose amount `to_dec` cannot read raises; otherwise the result holds only that amount as TTC, confidence 0.5 and the note `payment_total` |
| PaymentTotal.ColonSeparator | core/parsing/rules/payment_total.py:8-13 | on `CB: 26,80` the colon is skipped and the amount starts at the digits |
| PaymentTotal.ColonSeparatorEnd | core/parsing/rules/payment_total.py:13 | the separator of `CB: 26,80` ends before the digits |
| PaymentTotal.DashIsSeparator | core/parsing/rules/payment_total.py:13 | on `CB -5,00` the minus is taken by `[:\-]?`, so the amount read is 5,00, not -5,00 |
| PaymentTotal.DashSeparatorEnd | core/parsing/rules/payment_total.py:13 | the separator of `CB -5,00` ends after the minus |
| TotalTtc.MatchAt | core/parsing/rules/total_ttc.py:9 | one attempt of the pattern at i: with `total` first, then without it; it needs a word boundary at i and gives the start of the amount |
| TotalTtc.Search | core/parsing/rules/total_ttc.py:12 | `_ttc.search`: `FirstMatch` over the attempts at i, i+1, …, |s|; the amount it finds starts an amount |
| TotalTtc.SearchLeftmost | core/parsing/rules/total_ttc.py:9-12 | `_ttc.search` returns the leftmost match, so the amount is the first number after the first TTC label: the match at p when no position from i up to p matches |
| TotalTtc.Apply | core/parsing/rules/total_ttc.py:11-17 | no match gives no result; a match whose amount `to_dec` cannot read raises; otherwise the result holds only that amount as TTC, confidence 0.55 and the note `total_ttc` |
| TotalTtc.DottedLabel | core/parsing/rules/total_ttc.py:9 | `T.T.C. 9,90` matches, with the amount at 9,90 |
| TotalTtc.DottedWord | core/parsing/rules/total_ttc.py:9 | the label of `T.T.C. 9,90` ends before its last dot: `\.?\b` does not take a dot that no word character follows |
| TotalTtc.DottedLazy | core/parsing/rules/total_ttc.py:9 | the lazy `.*?` then reaches the first amount |
| TotalsLine.LabelEnd | core/parsing/rules/totals_line.py:14-16 | the label `total` then TTC, HT or TVA matches at a word boundary and ends at least five characters further |
| TotalsLine.MatchAt | core/parsing/rules/totals_line.py:14-16 | one attempt at i: an amount start after the label's end, on the same line |
| TotalsLine.Search | core/parsing/rules/totals_line.py:19-21 | each `search`: `FirstMatch` over the attempts at i, i+1, …, |s| of the label's pattern; the amount it finds starts an amount |
| TotalsLine.SearchLeftmost | core/parsing/rules/totals_line.py:19-28 | each label's `search` returns its leftmost match, so each total comes from its own label's first match: the match at p when no position from i up to p matches |
| TotalsLine.Read | core/parsing/rules/totals_line.py:26-28 | `to_dec(m.group(1)) if m else None`: missing stays missing, a found amount is read by `to_dec` or makes the rule raise |
| TotalsLine.Combine | core/parsing/rules/totals_line.py:18-33 | `apply` once the three searches have captured their amounts: no label at all gives no result; an amount that does not read raises; otherwise each total is its own label's amount, at least one is present, with no cross-check, no rows, confidence 0.7 and the note `totals_line` |
| TotalsLine.TotalTtcExample | core/parsing/rules/totals_line.py:14 | `TOTAL TTC : 12,50` gives 12,50 |
| TotalsLine.TtcSlice | core/parsing/rules/totals_line.py:14 | the characters 12 to 17 of `TOTAL TTC : 12,50` are the amount `12,50` |
| TotalsLine.TtcLabelAtStart | core/parsing/rules/totals_line.py:14 | the `total ttc` label of `TOTAL TTC : 12,50` matches at 0 and ends after `TTC`, at 9 |
| TotalsLine.TotalWordExample | core/parsing/rules/totals_line.py:14 | `total` matches at the start at a word boundary and the space after it is skipped |
| TotalsLine.TtcWordExample | core/parsing/rules/totals_line.py:14 | `TTC` matches after it |
| TotalsLine.LazyExample | core/parsing/rules/totals_line.py:14 | the lazy skip stops at the first digit |
| TotalsLine.RunExample | core/parsing/rules/totals_line.py:14 | the amount runs to the end |
| TotalsLine.HtLabelAtStart | core/parsing/rules/totals_line.py:15 | `TOTAL HT` followed by a non-word character is an HT label |
| TotalsLine.AmountOnNextLineMissed | core/parsing/rules/totals_line.py:15 | an amount on the line after `TOTAL HT` is not found: `.` does not cross the line feed |
| TotalsLine.CaptureAcrossLines | core/parsing/rules/totals_line.py:15-27 | once started, the amount runs across the line feed: `TOTAL HT 10,00` over `20,00` captures both, and `to_dec` raises on it |
| TotalsLine.CrossSlice | core/parsing/rules/totals_line.py:15 | the slice captured there |
| TotalsLine.CrossLazy | core/parsing/rules/totals_line.py:15 | the lazy skip stops at the first digit after the label |
| TotalsLine.CrossRun | core/parsing/rules/totals_line.py:15 | the run of digits, whitespace, points and commas reaches the end |
| TotalsLine.CrossKept | core/parsing/rules/base_rule.py:88-93 | `to_dec` keeps `10,0020,00` from it |
| TotalsLine.CrossParse | core/parsing/rules/base_rule.py:94-97 | which, commas turned into points, is not a decimal |
| TvaParenthetical.SlashEnd | core/parsing/rules/tva_parenthetical.py:14 | `\s*/\s*`: a match moves past the slash |
| TvaParenthetical.MatchAt | core/parsing/rules/tva_parenthetical.py:14 | one attempt of the pattern at i: a word boundary, a rate directly followed by `%`, then three amounts in the order TVA, HT, TTC, each starting after the previous one |
| TvaParenthetical.AfterRate | core/parsing/rules/tva_parenthetical.py:14 | after `%`: the TVA amount starts right after the optional separator, and the groups keep the rate read |
| TvaParenthetical.AfterOpen | core/parsing/rules/tva_parenthetical.py:14 | after `(`: the HT amount starts after the whitespace, before the TTC amount |
| TvaParenthetical.Search | core/parsing/rules/tva_parenthetical.py:18 | `_re.search`: `FirstMatch` over the attempts at i, i+1, …, |s|; the groups it finds are valid (a rate of rate shape and three amount starts) |
| TvaParenthetical.SearchLeftmost | core/parsing/rules/tva_parenthetical.py:13-20 | `_re.search` returns the leftmost match, so only the first match is used: the attempt at p when no attempt from i up to p matches |
| TvaParenthetical.Build | core/parsing/rules/tva_parenthetical.py:21-30 | after `fix_ttc` the printed HT and TVA are kept and the TTC is replaced by HT + TVA when it is more than 0.02 off, so the totals balance; one row with the printed rate and those amounts; confidence 0.95 and the note `tva_parenthetical` |
| TvaParenthetical.Apply | core/parsing/rules/tva_parenthetical.py:17-30 | no match gives no result; an amount `to_dec` cannot read makes the rule raise; otherwise the result built from the rate and the three amounts read |
| TvaParenthetical.DocumentedExample | core/parsing/rules/tva_parenthetical.py:8 | the documented line `10% : 6,95 € (69,55 € HT / 76,50 € TTC)` gives HT 69.55, TVA 6.95 and TTC 76.50, with one row at 10 % |
| TvaParenthetical.TenPercent | core/parsing/rules/tva_parenthetical.py:21 | the token `10` reads as 10.0 |
| TvaParenthetical.NumRunEndAt | core/parsing/rules/tva_parenthetical.py:14 | the amount run ends at the first character outside `[\d\s.,]` |
| TvaParenthetical.ExampleMatch | core/parsing/rules/tva_parenthetical.py:14 | the documented line matches at its start with the amounts at their places |
| TvaParenthetical.ExampleRate | core/parsing/rules/tva_parenthetical.py:14 | the documented line starts at a word boundary with the rate token `10`, directly followed by `%` |
| TvaParenthetical.ExampleTva | core/parsing/rules/tva_parenthetical.py:14 | in the documented line the separator after `%` ends at 6, where the TVA amount starts; it runs to 11, before the euro sign |
| TvaParenthetical.ExampleSeparator | core/parsing/rules/tva_parenthetical.py:14 | the separator after `%` ends at the TVA amount |
| TvaParenthetical.ExampleOpen | core/parsing/rules/tva_parenthetical.py:14 | the currency then `(` follow the TVA amount |
| TvaParenthetical.ExampleHt | core/parsing/rules/tva_parenthetical.py:14 | the HT amount runs to the euro sign |
| TvaParenthetical.ExampleHtLabel | core/parsing/rules/tva_parenthetical.py:14 | the currency then `HT` follow it |
| TvaParenthetical.ExampleSlash | core/parsing/rules/tva_parenthetical.py:14 | the slash leads to the TTC amount |
| TvaParenthetical.ExampleTtc | core/parsing/rules/tva_parenthetical.py:14 | the TTC amount runs to the euro sign |
| TvaParenthetical.ExampleClose | core/parsing/rules/tva_parenthetical.py:14 | the currency, `TTC` and `)` close the match |
| TvaParenthetical.ExampleSlices | core/parsing/rules/tva_parenthetical.py:14 | the three captures keep their trailing space |
| TvaParenthetical.PrintedAmount | core/parsing/rules/base_rule.py:84-109 | an amount written with two decimals and a trailing space reads as its cents |
| TvaParenthetical.TvaAmount | core/parsing/rules/base_rule.py:108-109 | `6,95 ` reads as 6.95 |
| TvaParenthetical.HtAmount | core/parsing/rules/base_rule.py:108-109 | `69,55 ` reads as 69.55 |
| TvaParenthetical.TtcAmount | core/parsing/rules/base_rule.py:108-109 | `76,50 ` reads as 76.50 |
| TvaInlineCols.CodeRunEnd | core/parsing/rules/tva_inline_cols.py:20 | `[A-Z0-9\-]+` under `(?i)`: the end of the run of code characters from p |
| TvaInlineCols.LastSplit | core/parsing/rules/tva_inline_cols.py:20 | the backtracking split of two adjacent amounts: the first ends at a whitespace position whose run is followed by the start of the second |
| TvaInlineCols.Split34 | core/parsing/rules/tva_inline_cols.py:20 | where the HT amount starting at y ends and the TTC amount starts |
| TvaInlineCols.Split23 | core/parsing/rules/tva_inline_cols.py:20 | where the TVA amount ends and the HT amount starts, chosen so that the TTC amount can still follow |
| TvaInlineCols.PercentGap | core/parsing/rules/tva_inline_cols.py:20 | `\s*%?\s+` after the rate: at least one character is consumed |
| TvaInlineCols.RowMatch | core/parsing/rules/tva_inline_cols.py:20-33 | `row.match(ln)` from the start of the line: the groups of a code, a rate and three amounts in order |
| TvaInlineCols.ReadRow | core/parsing/rules/tva_inline_cols.py:39-44 | the row read from a matching line: the printed rate, the TVA and HT amounts read, the TTC fixed by `fix_ttc` so that the row balances; it raises exactly when one of the three amounts does not read |
| TvaInlineCols.Summary | core/parsing/rules/tva_inline_cols.py:46-56 | no rows give no result; otherwise the rows as details, totals that are the column sums, confidence 0.9 and the note `tva_inline_cols` |
| TvaInlineCols.Apply | core/parsing/rules/tva_inline_cols.py:23-56 | the line loop with its `in_table` flag computes `Parsed`: rows are read only after a header line, the table ends at the first non-row line once a row was read, and a failing `to_dec` raises |
| TvaInlineCols.RowsExtend | core/parsing/rules/tva_inline_cols.py:27-44 | the loop only appends rows |
| TvaInlineCols.PrefixSnoc | core/parsing/rules/tva_inline_cols.py:44 | a prefix of the rows after one more append is still a prefix |
| TvaInlineCols.RowsBalanced | core/parsing/rules/tva_inline_cols.py:43-44 | every row collected balances within 0.02 |
| TvaInlineCols.BalancedSnoc | core/parsing/rules/tva_inline_cols.py:44 | appending a balanced row keeps all rows balanced |
| TvaInlineCols.NoHeaderNoRows | core/parsing/rules/tva_inline_cols.py:28-32 | without a header line no row is read |
| TvaInlineCols.NoHeaderNoResult | core/parsing/rules/tva_inline_cols.py:28-47 | a text none of whose stripped lines is a header gives no result |
| TvaInlineCols.TableEndsAtNonRow | core/parsing/rules/tva_inline_cols.py:34-37 | once rows were read, a line that is not a row ends the table |
| TvaInlineCols.ResultRows | core/parsing/rules/tva_inline_cols.py:46-56 | a result has rows, all balanced, and its totals are their column sums |
| TvaInlineCols.FirstCIAt | core/parsing/rules/tva_inline_cols.py:18 | the earliest case-insensitive hit of a word is at q when no earlier position starts with its first letter |
| TvaInlineCols.HeaderTaux | core/parsing/rules/tva_inline_cols.py:12-18 | in the documented header line `taux` is first found at 7 |
| TvaInlineCols.HeaderTva | core/parsing/rules/tva_inline_cols.py:12-18 | in the documented header line, `tva` is first found after `taux` at 15 |
| TvaInlineCols.HeaderHt | core/parsing/rules/tva_inline_cols.py:12-18 | in the documented header line, `ht` is first found after `tva` at 23 |
| TvaInlineCols.HeaderTtc | core/parsing/rules/tva_inline_cols.py:12-18 | in the documented header line, `ttc` is first found after `ht` at 31, followed by the end of the line |
| TvaInlineCols.ExampleHeaderMatches | core/parsing/rules/tva_inline_cols.py:12-18 | the documented header line is a header |
| TvaInlineCols.ExampleRowIs | core/parsing/rules/tva_inline_cols.py:13 | the documented row line has the characters the example lemmas are stated for |
| TvaInlineCols.ExampleRowStart | core/parsing/rules/tva_inline_cols.py:13-20 | the code `B` is one character and the rate starts at 7 |
| TvaInlineCols.TenPercentParts | core/parsing/rules/tva_inline_cols.py:13-20 | `10.00` is a rate token with whole part `10` and fraction `00` |
| TvaInlineCols.ExampleRate | core/parsing/rules/tva_inline_cols.py:13-20 | the rate token ends at 12 and the amounts start at 15, after `%` and two spaces |
| TvaInlineCols.ExampleNumRun | core/parsing/rules/tva_inline_cols.py:13-20 | from 16 on, every character of the row can continue an amount, so the run reaches the end of the line |
| TvaInlineCols.ExampleRuns | core/parsing/rules/tva_inline_cols.py:13-20 | the amounts starting at 15, 23 and 31 each run greedily to the end of the line |
| TvaInlineCols.ExampleGaps | core/parsing/rules/tva_inline_cols.py:13-20 | the spaces before `24,36` end at 23, those before `26,80` at 31 |
| TvaInlineCols.ExampleNoSplit | core/parsing/rules/tva_inline_cols.py:13-20 | inside `26,80` there is no whitespace to split at |
| TvaInlineCols.ExampleSplitAt30 | core/parsing/rules/tva_inline_cols.py:13-20 | from `24,36` on, the last split is the space before `26,80` |
| TvaInlineCols.ExampleLastSplitNone | core/parsing/rules/tva_inline_cols.py:13-20 | an amount starting at `26,80` cannot be followed by another |
| TvaInlineCols.ExampleLastSplitSome | core/parsing/rules/tva_inline_cols.py:13-20 | HT starting at `24,36` ends at 30 and TTC starts at 31 |
| TvaInlineCols.Split23Down | core/parsing/rules/tva_inline_cols.py:20 | `Split23` skips an end position whose whitespace run does not lead to an HT and a TTC amount |
| TvaInlineCols.ExampleSplit23First | core/parsing/rules/tva_inline_cols.py:13-20 | ending TVA at 22 leaves HT `24,36` and TTC `26,80` |
| TvaInlineCols.Split23Solid | core/parsing/rules/tva_inline_cols.py:20 | `Split23` skips a run of non-whitespace end positions |
| TvaInlineCols.ExampleSplit23Inside | core/parsing/rules/tva_inline_cols.py:13-20 | no end inside `24,36` is chosen |
| TvaInlineCols.ExampleSplit23Gap | core/parsing/rules/tva_inline_cols.py:13-20 | no end in the spaces after `24,36` is chosen, since TTC would have nothing left |
| TvaInlineCols.ExampleSolidTtc | core/parsing/rules/tva_inline_cols.py:13 | `26,80` holds no whitespace |
| TvaInlineCols.ExampleSplit23 | core/parsing/rules/tva_inline_cols.py:13-20 | the TVA group ends at 22 and HT starts at 23: the last end for which HT and TTC still match |
| TvaInlineCols.ExampleRowMatch | core/parsing/rules/tva_inline_cols.py:13-33 | the documented row matches with rate `10.00` and the groups TVA 15-22, HT 23-30, TTC from 31 |
| TvaInlineCols.PaddedAmount | core/parsing/rules/base_rule.py:84-109 | an amount written with a comma and two decimals, followed by spaces, reads as its cents |
| TvaInlineCols.PrintedTva | core/parsing/rules/base_rule.py:84-109 | `2,44` is 2.44 printed with a comma |
| TvaInlineCols.ExampleTva | core/parsing/rules/tva_inline_cols.py:13-40 | the TVA group `2,44` with its three trailing spaces reads as 2.44 |
| TvaInlineCols.PaddedTva | core/parsing/rules/base_rule.py:84-109 | `2,44` followed by three spaces reads as 2.44 |
| TvaInlineCols.PrintedHt | core/parsing/rules/base_rule.py:84-109 | `24,36` is 24.36 printed with a comma |
| TvaInlineCols.ExampleHt | core/parsing/rules/tva_inline_cols.py:13-41 | the HT group `24,36` with its two trailing spaces reads as 24.36 |
| TvaInlineCols.PaddedHt | core/parsing/rules/base_rule.py:84-109 | `24,36` followed by two spaces reads as 24.36 |
| TvaInlineCols.PrintedTtc | core/parsing/rules/base_rule.py:84-109 | `26,80` is 26.80 printed with a comma |
| TvaInlineCols.ExampleTtc | core/parsing/rules/tva_inline_cols.py:13-42 | the TTC group `26,80` reads as 26.80 |
| TvaInlineCols.PaddedTtc | core/parsing/rules/base_rule.py:84-109 | `26,80` reads as 26.80 |
| TvaInlineCols.TenPercentValue | core/parsing/rules/tva_inline_cols.py:39 | `10.00` reads as 10.0 |
| TvaInlineCols.ExampleRead | core/parsing/rules/tva_inline_cols.py:13-44 | the documented row reads as 10 %, TVA 2.44, HT 24.36, TTC 26.80, which `fix_ttc` keeps as they balance |
| TvaInlineCols.ExampleSplitLines | core/parsing/rules/tva_inline_cols.py:12-24 | the documented text splits into its two lines |
| TvaInlineCols.StripUntrimmed | core/parsing/rules/tva_inline_cols.py:24 | a line with no whitespace at either end is its own strip |
| TvaInlineCols.ExampleLines | core/parsing/rules/tva_inline_cols.py:12-24 | the documented text gives the header line and the row line, unchanged by the strip |
| TvaInlineCols.HeaderStep | core/parsing/rules/tva_inline_cols.py:28-30 | before the table, a header line opens it |
| TvaInlineCols.RowStep | core/parsing/rules/tva_inline_cols.py:33-44 | inside the table, a matching row that reads is appended |
| TvaInlineCols.LastRowStep | core/parsing/rules/tva_inline_cols.py:33-44 | inside the table, a last line that matches the row pattern and reads gives exactly that row |
| TvaInlineCols.HeaderThenRow | core/parsing/rules/tva_inline_cols.py:27-44 | a header line followed by one row line gives that row |
| TvaInlineCols.DocumentedExample | core/parsing/rules/tva_inline_cols.py:10-56 | the documented table gives one row at 10 % with TVA 2.44, HT 24.36 and TTC 26.80, and these as the totals, confidence 0.9 and the note `tva_inline_cols` |
| TvaInlineAny.AmountAt | core/parsing/rules/tva_inline_any.py:10 | `_NUM` at p: one to nine digits, a point or comma and two digits, with no digit just before or just after |
| TvaInlineAny.Matches | core/parsing/rules/tva_inline_any.py:23 | `_NUM.finditer`: every match found is a match at its position, and the matches do not overlap and come in order |
| TvaInlineAny.AmountTokenReads | core/parsing/rules/tva_inline_any.py:24 | `to_dec` reads every `_NUM` token, so `_grab_amounts` never raises and its `is not None` test always passes |
| TvaInlineAny.MatchShape | core/parsing/rules/tva_inline_any.py:10 | a matched token has the shape digits, separator and two decimals, and stands for its cents |
| TvaInlineAny.CentsOfToken | core/parsing/rules/base_rule.py:84-109 | a token of that shape is read by `to_dec` as its cents |
| TvaInlineAny.TokenValues | core/parsing/rules/tva_inline_any.py:23-26 | the amounts of the matches, one per match, in order |
| TvaInlineAny.GrabAmounts | core/parsing/rules/tva_inline_any.py:21-27 | the loop of `_grab_amounts` returns the amounts of the `_NUM` matches of the line, in order |
| TvaInlineAny.SnocKeeps | core/parsing/rules/tva_inline_any.py:26 | appending keeps the amounts already collected |
| TvaInlineAny.ReadToken | core/parsing/rules/tva_inline_any.py:24-26 | one token read and quantised is its value |
| TvaInlineAny.GrabNonNegative | core/parsing/rules/tva_inline_any.py:10 | the pattern has no sign, so every amount grabbed is non-negative |
| TvaInlineAny.RateHit | core/parsing/rules/tva_inline_any.py:11 | `_RATE` at i: a rate token, then optional whitespace and `%` |
| TvaInlineAny.RateSearch | core/parsing/rules/tva_inline_any.py:11-125 | `_RATE.search`: the first position from i where the pattern matches; none matches before it |
| TvaInlineAny.RateTokenReads | core/parsing/rules/tva_inline_any.py:127 | `to_dec` reads a rate token exactly, as its value |
| TvaInlineAny.PrintedRate | core/parsing/rules/tva_inline_any.py:124-127 | the printed rate is present exactly when `_RATE` matches, and is the value of the token matched |
| TvaInlineAny.MedianBetween | core/parsing/rules/tva_inline_any.py:33 | `statistics.median` lies between the smallest and the largest value |
| TvaInlineAny.Reals | core/parsing/rules/tva_inline_any.py:33 | the amounts as numbers |
| TvaInlineAny.AbsDev | core/parsing/rules/tva_inline_any.py:34 | `abs_dev`: each amount's distance to the median |
| TvaInlineAny.KeepNearIsFilter | core/parsing/rules/tva_inline_any.py:39 | the comprehension keeps exactly the amounts within 12 MADs of the median, in their order |
| TvaInlineAny.MadFilterProperties | core/parsing/rules/tva_inline_any.py:29-39 | under three amounts, or with a zero MAD, nothing is filtered; otherwise exactly the amounts near the median are kept in order, and at least one is |
| TvaInlineAny.MadKeepsOne | core/parsing/rules/tva_inline_any.py:33-39 | some amount is always near the median |
| TvaInlineAny.MulDivBound | core/parsing/rules/tva_inline_any.py:39 | a quotient of a number by a larger positive one is at most 1 |
| TvaInlineAny.RatePenalty | core/parsing/rules/tva_inline_any.py:41-49 | the penalty is 0 exactly when HT is positive and the implied rate lies in [1, 25] percent, and at least 5 otherwise |
| TvaInlineAny.PenaltyGrows | core/parsing/rules/tva_inline_any.py:47-48 | above 25 percent the penalty grows with the implied rate |
| TvaInlineAny.Score | core/parsing/rules/tva_inline_any.py:51-57 | a score is at least the triple's residual |HT + TVA − TTC| |
| TvaInlineAny.ScoreZero | core/parsing/rules/tva_inline_any.py:51-57 | a score is 0 exactly when the triple balances and its TVA is the printed rate's (when HT is positive), or, without a printed rate, its implied rate is plausible |
| TvaInlineAny.PairCandidates | core/parsing/rules/tva_inline_any.py:80-94 | every ordered pair gives at least the (HT, TVA) reconstruction |
| TvaInlineAny.PairRow | core/parsing/rules/tva_inline_any.py:77-94 | a row of the double loop yields candidates unless it pairs its only value with itself |
| TvaInlineAny.FoldSnoc | core/parsing/rules/tva_inline_any.py:72-94 | one more candidate is one more step of the comparison |
| TvaInlineAny.FoldAppend | core/parsing/rules/tva_inline_any.py:67-94 | the windows then the pairs: scoring is one pass over their concatenation |
| TvaInlineAny.BestOfIsFirstMinimum | core/parsing/rules/tva_inline_any.py:64-94 | with the strict `score < best_score`, the candidate kept is the first one of minimal score; none only without candidates |
| TvaInlineAny.CandidatesNonEmpty | core/parsing/rules/tva_inline_any.py:96-97 | with two amounts or more there is a candidate, so the `if not best` exit is never taken |
| TvaInlineAny.FixTriple | core/parsing/rules/tva_inline_any.py:104 | `fix_ttc` keeps HT and TVA and leaves a residual of at most 0.02; a balanced triple is unchanged |
| TvaInlineAny.Consider | core/parsing/rules/tva_inline_any.py:71-73 | one candidate against the best so far, replaced only by a strictly lower score |
| TvaInlineAny.TryPair | core/parsing/rules/tva_inline_any.py:80-94 | the three reconstructions of one ordered pair, in the order written |
| TvaInlineAny.ScoreWindows | core/parsing/rules/tva_inline_any.py:68-73 | the loop over consecutive windows keeps the first best window |
| TvaInlineAny.ScoreRow | core/parsing/rules/tva_inline_any.py:77-94 | the inner loop over j continues the comparison over row i |
| TvaInlineAny.ScorePairs | core/parsing/rules/tva_inline_any.py:76-94 | the double loop continues it over every ordered pair |
| TvaInlineAny.BestTriplet | core/parsing/rules/tva_inline_any.py:59-105 | `_best_triplet` with its loops computes `BestTripletOf` |
| TvaInlineAny.BestTripletProperties | core/parsing/rules/tva_inline_any.py:59-105 | no triple from fewer than two amounts; otherwise the first candidate of minimal score, refused beyond a residual of 1.00 and fixed by `fix_ttc`, so a triple returned balances within 0.02 |
| TvaInlineAny.RowRate | core/parsing/rules/tva_inline_any.py:151-153 | the row's rate is the printed rate; without one it is present exactly when HT is positive, and is then the implied rate to within half a hundredth |
| TvaInlineAny.Below | core/parsing/rules/tva_inline_any.py:141-148 | what the at most eight lines below offer, nearest first: each one's last amount when it is a TOTAL line with amounts |
| TvaInlineAny.LineResults | core/parsing/rules/tva_inline_any.py:120-174 | what each stripped line yields, one entry per line |
| TvaInlineAny.OfferedTotal | core/parsing/rules/tva_inline_any.py:145-148 | `_IS_TOTAL.search` then the last grabbed amount |
| TvaInlineAny.BelowAt | core/parsing/rules/tva_inline_any.py:141-148 | the line j below is the entry j − 1 of what is offered |
| TvaInlineAny.ReconcileBelow | core/parsing/rules/tva_inline_any.py:141-161 | the loop over the lines below returns the reconciliation with the first line whose total agrees within 1.00 |
| TvaInlineAny.ScanLine | core/parsing/rules/tva_inline_any.py:121-174 | the body of the line loop computes what one line yields |
| TvaInlineAny.Apply | core/parsing/rules/tva_inline_any.py:118-176 | `apply` returns what the first line that yields anything yields, none when no line does |
| TvaInlineAny.ScanLines | core/parsing/rules/tva_inline_any.py:120-176 | the line loop with its early returns |
| TvaInlineAny.FirstSomeHere | core/parsing/rules/tva_inline_any.py:155-174 | a line that yields ends the loop |
| TvaInlineAny.FirstSomeNext | core/parsing/rules/tva_inline_any.py:121-131 | a line that yields nothing passes to the next |
| TvaInlineAny.FirstSomeIsFirst | core/parsing/rules/tva_inline_any.py:120-176 | the result is that of the first yielding line; there is none exactly when no line yields |
| TvaInlineAny.LineResultNeedsTva | core/parsing/rules/tva_inline_any.py:121-131 | only a line with the word TVA and at least two amounts after filtering yields |
| TvaInlineAny.ReconcileOnlyWithoutTriple | core/parsing/rules/tva_inline_any.py:136 | since a triple is already fixed to within 0.02, the 0.20 test is true only without a triple: reconciliation is tried only then |
| TvaInlineAny.SmallestProperties | core/parsing/rules/tva_inline_any.py:138-140 | `sorted(values)[:2]` holds the two smallest amounts, in increasing order, drawn from the values |
| TvaInlineAny.ReconcileFindsTotal | core/parsing/rules/tva_inline_any.py:141-161 | the reconciliation uses the first line below whose total is within 1.00 of HT + TVA; none exactly when no such line exists |
| TvaInlineAny.DecideShape | core/parsing/rules/tva_inline_any.py:136-174 | a result has totals balanced within 0.02 and one row with those amounts; reconciled it has confidence 0.93 and both notes, direct 0.90, the note `tva_inline_any` and the printed or implied rate |
| TvaInlineAny.LineResultShape | core/parsing/rules/tva_inline_any.py:120-174 | what any line yields has HT, TVA and TTC, balanced within 0.02, and confidence 0.93 or 0.90 |
| TvaVertical.HintDigit | core/parsing/rules/tva_vertical.py:11 | the lazy `[^%\n\r]*?` then a digit: the earliest digit from p reached through characters that are neither `%`, line breaks nor digits |
| TvaVertical.RateHintAt | core/parsing/rules/tva_vertical.py:11 | one attempt of `_RATE_HINT` at i: where its rate token starts, at a digit |
| TvaVertical.RateHintSearch | core/parsing/rules/tva_vertical.py:97 | `_RATE_HINT.search`: `FirstMatch` over the attempts at i, i+1, …, |s|; the rate it finds starts with a digit |
| TvaVertical.RateHintLeftmost | core/parsing/rules/tva_vertical.py:97 | `_RATE_HINT.search` returns the leftmost match: the match at p when no position from i up to p matches |
| TvaVertical.RateHint | core/parsing/rules/tva_vertical.py:97-102 | the rate hint of a line, when there is one, lies in [0, 100) |
| TvaVertical.NumLine | core/parsing/rules/tva_vertical.py:8-104 | `_NUM_LINE.match`: the amount a matching line carries is not empty and starts with a digit or a minus |
| TvaVertical.MulNonNeg | core/parsing/rules/tva_vertical.py:19-24 | a product of non-negative numbers is non-negative |
| TvaVertical.RatioBetween | core/parsing/rules/tva_vertical.py:22-24 | a ratio between two bounds puts the numerator between the bounds times the denominator |
| TvaVertical.RatioOkBounds | core/parsing/rules/tva_vertical.py:19-24 | a plausible ratio has a non-zero TVA of the same sign as HT, between 0.5 % and 30 % of it |
| TvaVertical.To3 | core/parsing/rules/tva_vertical.py:26-42 | `_to3`: only three values; a triple exactly when the first two add up to the third within 0.02; TTC is the third and HT, TVA the first two in some order; the larger is HT when that gives a plausible ratio, else the swap when that does, else the values as given |
| TvaVertical.EntriesMembers | core/parsing/rules/tva_vertical.py:51-56 | `order` holds, for each label found in the window text, its first position and its canon, and nothing else |
| TvaVertical.InsertByPos | core/parsing/rules/tva_vertical.py:57 | insertion adds exactly the entry inserted |
| TvaVertical.InsertByPosSorted | core/parsing/rules/tva_vertical.py:57 | insertion keeps the entries sorted by position |
| TvaVertical.SortByPos | core/parsing/rules/tva_vertical.py:57 | `order.sort(key=...)` is a permutation |
| TvaVertical.SortByPosSorted | core/parsing/rules/tva_vertical.py:57 | `order.sort(key=lambda x: x[0])` leaves the entries sorted by position |
| TvaVertical.FirstIndex | core/parsing/rules/tva_vertical.py:58-61 | the first entry of a canon |
| TvaVertical.FirstIndexAppend | core/parsing/rules/tva_vertical.py:58-61 | appending keeps the first entry of a canon already present |
| TvaVertical.FirstIndexUnique | core/parsing/rules/tva_vertical.py:58-61 | an entry with no earlier one of its canon is the first |
| TvaVertical.FirstIndexNew | core/parsing/rules/tva_vertical.py:58-61 | an entry of a new canon is its first |
| TvaVertical.DedupFirstIndex | core/parsing/rules/tva_vertical.py:58-61 | the de-duplicated canons occur in the entries, in the order of their first entries |
| TvaVertical.DedupMembers | core/parsing/rules/tva_vertical.py:58-61 | the de-duplicated canons are distinct and are exactly the canons of the entries |
| TvaVertical.DedupOrdered | core/parsing/rules/tva_vertical.py:57-61 | on sorted entries they come by position |
| TvaVertical.PosBeforePermutation | core/parsing/rules/tva_vertical.py:57 | which canon comes first by position does not depend on the order of the entries |
| TvaVertical.SortedSameEntries | core/parsing/rules/tva_vertical.py:57 | sorting keeps the entries |
| TvaVertical.OrderDistinct | core/parsing/rules/tva_vertical.py:44-63 | `_header_order` returns distinct canons, at most three |
| TvaVertical.OrderMembers | core/parsing/rules/tva_vertical.py:44-63 | a canon is returned exactly when one of its labels occurs in the window text |
| TvaVertical.OrderByPosition | core/parsing/rules/tva_vertical.py:44-63 | the canons are returned in the order of their earliest label positions |
| TvaVertical.FourCanonsRepeat | core/parsing/rules/tva_vertical.py:58-61 | four canons from three repeat |
| TvaVertical.DistinctCanonsAtMostThree | core/parsing/rules/tva_vertical.py:58-63 | a list of pairwise different canons has at most three of them |
| TvaVertical.HeaderOrder | core/parsing/rules/tva_vertical.py:44-63 | `_header_order` computes `HeaderOrderOf`: the labels found, sorted by position, without repeats |
| TvaVertical.FindLabels | core/parsing/rules/tva_vertical.py:50-56 | the first loop of `_header_order` computes `Entries`: each label found, with its position, in the order of the label list |
| TvaVertical.DedupCanons | core/parsing/rules/tva_vertical.py:58-61 | the second loop of `_header_order` computes `Dedup`: each canon the first time it occurs |
| TvaVertical.FindAt | core/parsing/rules/tva_vertical.py:54 | `find` returns the position where the label occurs when it occurs nowhere before |
| TvaVertical.NotAt | core/parsing/rules/tva_vertical.py:54 | a label with a mismatched character at some offset does not occur there |
| TvaVertical.WindowMontant | core/parsing/rules/tva_vertical.py:46-54 | `montant tva` does not occur in the documented window |
| TvaVertical.WindowTva | core/parsing/rules/tva_vertical.py:46-54 | in the documented window `mt. tva` is first found at 0 and `tva` at 4 |
| TvaVertical.WindowHt | core/parsing/rules/tva_vertical.py:46-54 | `base ht` at 8 and `ht` at 13 |
| TvaVertical.WindowTtc | core/parsing/rules/tva_vertical.py:46-54 | `base ttc` at 16 and `ttc` at 21 |
| TvaVertical.WindowEntries | core/parsing/rules/tva_vertical.py:46-56 | `order` for the documented window: TVA at 0 and 4, HT at 8 and 13, TTC at 16 and 21 |
| TvaVertical.InsertAtEnd | core/parsing/rules/tva_vertical.py:57 | an entry at a position no smaller than all the others is inserted last |
| TvaVertical.SortSorted | core/parsing/rules/tva_vertical.py:57 | the sort leaves entries already in position order unchanged |
| TvaVertical.DedupPairs | core/parsing/rules/tva_vertical.py:58-61 | two entries per canon, TVA then HT then TTC, de-duplicate to TVA, HT, TTC |
| TvaVertical.WindowOrder | core/parsing/rules/tva_vertical.py:46-63 | the documented window gives TVA, HT, TTC |
| TvaVertical.WindowEntriesOrder | core/parsing/rules/tva_vertical.py:57-61 | the six entries of the documented window are already in position order, and without repeats give TVA, HT, TTC |
| TvaVertical.ExampleWindow | core/parsing/rules/tva_vertical.py:47-49 | `["Mt. TVA", "Base HT Base TTC"]` around line 0 joins and lower-cases to `mt. tva base ht base ttc` |
| TvaVertical.ExampleWindowText | core/parsing/rules/tva_vertical.py:49 | the window around line 0 of the documented two lines is both lines joined by a space |
| TvaVertical.LowerWindow | core/parsing/rules/tva_vertical.py:49 | the documented window, lower-cased, is `mt. tva base ht base ttc` |
| TvaVertical.DocumentedHeaderOrder | core/parsing/rules/tva_vertical.py:44-63 | the docstring's example: `["Mt. TVA", "Base HT Base TTC"]` gives `["TVA", "HT", "TTC"]` |
| TvaVertical.AnchorsFrom | core/parsing/rules/tva_vertical.py:78 | `anchors`: in increasing order, exactly the lines where `_ANCHOR` matches |
| TvaVertical.Trip | core/parsing/rules/tva_vertical.py:119-132 | the triple of a window balances within 0.02, exists whenever the values in order do, and, under the order TVA, HT, TTC, maps the values accordingly when that is plausible |
| TvaVertical.MappedPermutation | core/parsing/rules/tva_vertical.py:122-127 | the mapping by the header order only rearranges the three values |
| TvaVertical.TripPermutation | core/parsing/rules/tva_vertical.py:119-132 | every triple a window gives only rearranges the window's three values |
| TvaVertical.KeysOfMembers | core/parsing/rules/tva_vertical.py:138-140 | `seen_vals` holds exactly the amounts of the triples kept |
| TvaVertical.SlideKeepsInv | core/parsing/rules/tva_vertical.py:114-145 | the window test keeps the triples balanced and pairwise different, with `seen_vals` their amounts |
| TvaVertical.Readings | core/parsing/rules/tva_vertical.py:95-111 | one reading per line |
| TvaVertical.ReadingsAt | core/parsing/rules/tva_vertical.py:95-111 | line k reads as itself |
| TvaVertical.BlockKeepsInv | core/parsing/rules/tva_vertical.py:94-150 | the line loop of one anchor keeps the triples balanced within 0.02 and pairwise different, with `seen_vals` exactly their amounts |
| TvaVertical.AnchorsKeepInv | core/parsing/rules/tva_vertical.py:86-150 | the loop over the anchors keeps the triples balanced within 0.02 and pairwise different, with `seen_vals` exactly their amounts |
| TvaVertical.BlockReadsWindow | core/parsing/rules/tva_vertical.py:94-150 | the line loop depends only on the lines it visits |
| TvaVertical.AnchorReadsWindow | core/parsing/rules/tva_vertical.py:91-94 | the scan around an anchor reads only lines `max(0, idx-2)` to `idx+39` |
| TvaVertical.RowOf | core/parsing/rules/tva_vertical.py:161-173 | a triple gives a row exactly when it passes the safety bounds, and the row carries its amounts |
| TvaVertical.Synth | core/parsing/rules/tva_vertical.py:156-176 | the synthesis keeps at most one row per triple, each the row of some triple |
| TvaVertical.RowOfKey | core/parsing/rules/tva_vertical.py:169-173 | a row carries the amounts of its triple and passes the safety bounds |
| TvaVertical.SynthSafe | core/parsing/rules/tva_vertical.py:169-173 | every synthesised row has HT, TVA and TTC, balances within 0.02 and has a plausible TVA/HT ratio |
| TvaVertical.SynthDistinct | core/parsing/rules/tva_vertical.py:138-173 | triples with distinct amounts give rows with distinct amounts |
| TvaVertical.RowKeysMembers | core/parsing/rules/tva_vertical.py:185-187 | `seen_final` holds exactly the keys of the rows kept |
| TvaVertical.Uniq | core/parsing/rules/tva_vertical.py:182-188 | the final de-duplication keeps at least one row of a non-empty list, and never adds any |
| TvaVertical.UniqIdentity | core/parsing/rules/tva_vertical.py:182-188 | rows with distinct amounts are all kept |
| TvaVertical.Summary | core/parsing/rules/tva_vertical.py:190-197 | the unique rows, their sums as totals, confidence 0.85 with several rows and 0.80 with one, the note `tva_vertical` |
| TvaVertical.Parsed | core/parsing/rules/tva_vertical.py:78-80 | no result without an anchor line |
| TvaVertical.ResultRows | core/parsing/rules/tva_vertical.py:152-197 | a result has rows, all passing the safety bounds, with distinct amounts, its totals are their sums and its confidence depends on their number |
| TvaVertical.SlideWindow | core/parsing/rules/tva_vertical.py:114-145 | the inner loop, left at its first pass by `break` on every path, computes `Slide` |
| TvaVertical.ReadOne | core/parsing/rules/tva_vertical.py:97-111 | the reading of one line |
| TvaVertical.ReadAll | core/parsing/rules/tva_vertical.py:95-111 | the readings of all lines |
| TvaVertical.Step | core/parsing/rules/tva_vertical.py:95-150 | one pass of the line loop computes `StepLine` |
| TvaVertical.ScanAround | core/parsing/rules/tva_vertical.py:87-150 | the scan of one anchor, with its fresh order, rate and buffer |
| TvaVertical.RunBlock | core/parsing/rules/tva_vertical.py:94-150 | the `while j < j1` loop computes `ScanBlock` |
| TvaVertical.Synthesize | core/parsing/rules/tva_vertical.py:156-176 | the synthesis loop computes `Synth` |
| TvaVertical.UniqStep | core/parsing/rules/tva_vertical.py:184-188 | one pass of the final de-duplication: a row whose amounts are already kept is skipped, any other appended |
| TvaVertical.RowKeysSnoc | core/parsing/rules/tva_vertical.py:187-188 | adding a row adds its key |
| TvaVertical.DedupFinal | core/parsing/rules/tva_vertical.py:182-188 | the final loop computes `Uniq` |
| TvaVertical.Apply | core/parsing/rules/tva_vertical.py:76-197 | `apply` computes `Parsed` on the stripped lines |
| TvaVertical.ApplyLines | core/parsing/rules/tva_vertical.py:78-197 | `apply` computes `ParsedLines` on the given lines |
| TvaVertical.ScanAll | core/parsing/rules/tva_vertical.py:82-150 | the anchor loop from empty `seen_idx`, `seen_vals` and `triples` |
| RuleRegistry.GetAmountRules | core/parsing/rule_registry.py:10-19 | seven distinct rules in the written order: parenthetical, inline columns, vertical, inline-any, totals line, lone TTC, payment total |
| RuleRegistry.RegistryComplete | core/parsing/rule_registry.py:10-19 | every registered rule class is in the list |
| RuleRegistry.ApplyRule | core/parsing/amounts_extractor.py:10 | `rule.apply(text)`: the vertical and inline-any rules never raise and give their own results |
| RuleRegistry.OrderIsNotPriority | core/parsing/rule_registry.py:2-19 | the list is not sorted by the `priority` constants: the first rule has the lowest, vertical (78) precedes inline-any (65), which precedes totals line (80); the comment numbers fall along the list except lone TTC (30) before payment (40) |
| AmountsExtractor.Outcomes | core/parsing/amounts_extractor.py:9-10 | one outcome per rule, in order, each that rule's `apply` |
| AmountsExtractor.Found | core/parsing/amounts_extractor.py:11-12 | `if res: out.append(res)`: nothing for no result, the result itself otherwise |
| AmountsExtractor.PrependTwice | core/parsing/amounts_extractor.py:8-12 | appending in two steps is appending once |
| AmountsExtractor.CollectStep | core/parsing/amounts_extractor.py:9-12 | a rule that returns adds its result, if any, and the loop goes on |
| AmountsExtractor.CollectStop | core/parsing/amounts_extractor.py:9-10 | a rule that raises ends `extract` with its exception |
| AmountsExtractor.Present | core/parsing/amounts_extractor.py:8-12 | the results present, in order: each one a rule gave, empty exactly when no rule gave any |
| AmountsExtractor.PrependNothing | core/parsing/amounts_extractor.py:8 | appending nothing changes nothing |
| AmountsExtractor.CollectKeepsPresent | core/parsing/amounts_extractor.py:8-13 | when no rule raises, `out` is the results present, in rule order |
| AmountsExtractor.CollectFails | core/parsing/amounts_extractor.py:8-13 | `extract` raises exactly when some rule raises |
| AmountsExtractor.ApplyOne | core/parsing/amounts_extractor.py:10 | one `rule.apply(text)` |
| AmountsExtractor.ApplyAll | core/parsing/amounts_extractor.py:8-13 | the loop over the rules computes the collected outcomes |
| AmountsExtractor.Extract | core/parsing/amounts_extractor.py:7-13 | `extract` on the registered rules |
| AmountsExtractor.ExtractAtMostSeven | core/parsing/amounts_extractor.py:7-13 | at most seven results, and none when every rule finds nothing |
| AmountsExtractor.CollectBound | core/parsing/amounts_extractor.py:7-13 | a pass over any outcomes that does not raise keeps at most one result per outcome, and none when every outcome is `None` |
| DateExtractor.Pow10 | core/parsing/date_extractor.py:21 | a power of ten is at least one |
| DateExtractor.DigitsBelow | core/parsing/date_extractor.py:21 | k digits read below 10^k |
| DateExtractor.NatToDigitsShort | core/parsing/date_extractor.py:21 | a number below 10^k prints in at most k digits |
| DateExtractor.LeadingZero | core/parsing/date_extractor.py:21 | a leading zero does not change the value |
| DateExtractor.Pad | core/parsing/date_extractor.py:21 | the `:0wd` format: digits reading back as the number, padded with zeros to width w or longer when the number needs it |
| DateExtractor.PadWidth | core/parsing/date_extractor.py:21 | a number below 10^w prints in exactly w characters |
| DateExtractor.ShortField | core/parsing/date_extractor.py:5 | `(\d{1,2})` then a separator `/`, `-` or `.` |
| DateExtractor.NumAt | core/parsing/date_extractor.py:5 | a match of `RE_NUM` at i gives a day and a month of one or two digits and a year of two to four |
| DateExtractor.NumSearch | core/parsing/date_extractor.py:16 | `RE_NUM.search`: the first position where it matches, and none before it |
| DateExtractor.YearValue | core/parsing/date_extractor.py:19-21 | the year below 10000; a two-digit year is in the 2000s |
| DateExtractor.Dashed | core/parsing/date_extractor.py:21 | `d-m-y` with its dashes at places 2 and 5 and each field where it belongs |
| DateExtractor.FormatNum | core/parsing/date_extractor.py:18-21 | `dd-mm-yyyy` of the day, the month and the completed year of the match |
| DateExtractor.MonthNamesKnown | core/parsing/date_extractor.py:7-13 | every month name `RE_FR` accepts is a key of `MOIS` |
| DateExtractor.MonthFrom | core/parsing/date_extractor.py:7 | the first month name, in the order of the alternation, that matches at p without regard to case and is followed by white space and four digits |
| DateExtractor.FrAt | core/parsing/date_extractor.py:7 | a match of `RE_FR` at i gives a day of one or two digits, a month name in `MOIS` once lower-cased and a four-digit year |
| DateExtractor.LowerMatched | core/parsing/date_extractor.py:24 | a name matched without regard to case lower-cases to the name |
| DateExtractor.FrSearch | core/parsing/date_extractor.py:22 | `RE_FR.search`: the first position where it matches, and none before it |
| DateExtractor.MoisCodes | core/parsing/date_extractor.py:9-13 | every value of `MOIS` is one of `01` to `12` |
| DateExtractor.MonthCodeValue | core/parsing/date_extractor.py:9-13 | a code of `MOIS` is two digits reading 1 to 12 |
| DateExtractor.TwoDigitsValue | core/parsing/date_extractor.py:27 | the value of two digits |
| DateExtractor.MoisValues | core/parsing/date_extractor.py:9-13 | `MOIS` maps each name to the two-digit number of its month |
| DateExtractor.NumericWins | core/parsing/date_extractor.py:16-21 | a numeric date anywhere wins: its day, month and completed year, dashed |
| DateExtractor.FrenchFallback | core/parsing/date_extractor.py:22-27 | without a numeric date, the first French date is the date: its day, the month number of its name and its year, dashed |
| DateExtractor.NoDate | core/parsing/date_extractor.py:15-28 | no date exactly when neither pattern matches |
| VendorExtractor.BadFrom | core/parsing/vendor_extractor.py:4-6 | `BAD.search` from p: true exactly when one of the alternatives matches at some position |
| VendorExtractor.Filter | core/parsing/vendor_extractor.py:9 | a comprehension keeps only elements of the list that pass the test |
| VendorExtractor.FilterFirst | core/parsing/vendor_extractor.py:26-28 | a filtered list is empty exactly when no element passes, and starts with the first element that does |
| VendorExtractor.FilterFilter | core/parsing/vendor_extractor.py:11-26 | filtering twice is filtering by both tests |
| VendorExtractor.FilterSnoc | core/parsing/vendor_extractor.py:12-20 | one more element is kept exactly when it passes |
| VendorExtractor.Lines | core/parsing/vendor_extractor.py:9 | the lines kept are stripped lines of the text and not empty |
| VendorExtractor.Head | core/parsing/vendor_extractor.py:12 | `lines[:12]`: a prefix, of twelve lines or all of them |
| VendorExtractor.Choose | core/parsing/vendor_extractor.py:22-31 | no vendor exactly when there is no candidate, and the vendor is a candidate |
| VendorExtractor.ExtractVendor | core/parsing/vendor_extractor.py:8-31 | the loop computes `Vendor` |
| VendorExtractor.VendorNone | core/parsing/vendor_extractor.py:12-23 | no vendor exactly when none of the first twelve lines is a candidate |
| VendorExtractor.VendorPreferred | core/parsing/vendor_extractor.py:26-28 | when one of the first twelve lines is a candidate in capitals of 2 to 40 characters, the first such line is the vendor |
| VendorExtractor.VendorFirstCandidate | core/parsing/vendor_extractor.py:30-31 | when none of the first twelve lines is a candidate in capitals, the vendor is the first candidate among them |
| VendorExtractor.VendorIsLine | core/parsing/vendor_extractor.py:9-31 | the vendor is a non-empty stripped line of the text that passes the tests |
| PyFloat.Round2 | models/tax.py:30 | `round(x, 2)` is within half a hundredth of x |
| PyFloat.Round2Exact | models/tax.py:48 | a whole number of hundredths rounds to itself |
| PyFloat.OrElse | models/receipt.py:186 | `x or d`: x when it is present and not zero, d otherwise |
| LegacyTax.RateTypeValue | models/tax.py:5-11 | each rate class has a non-empty string value |
| LegacyTax.NewTaxLine | models/tax.py:19 | a tax line is built exactly when its rate is within [0, 100], with the fields given; any other rate is a validation error on `rate` |
| LegacyTax.CalculatedTotalProperties | models/tax.py:24-30 | the printed total is used as given; without one the total is base plus tax to within half a cent |
| LegacyTax.RateTypeBands | models/tax.py:32-44 | each class is exactly its band of rates, and every rate outside the four bands is custom |
| LegacyTax.FrenchRates | models/tax.py:7-10 | the French rates 2.1, 5.5, 10 and 20 percent fall in the classes named after them |
| LegacyTax.IsValidMeaning | models/tax.py:46-51 | a line is valid exactly when it has no total, a zero one, or one within 0.02 of base plus tax rounded |
| LegacyTax.ValidWithCalculatedTotal | models/tax.py:46-51 | a line whose printed total is base plus tax rounded is valid; one whose non-zero total is farther than 0.025 from base plus tax is not |
| LegacyTax.SumTotalNear | models/tax.py:63-65 | over lines without printed totals, the sum of the totals is within half a cent per line of the bases plus the taxes |
| LegacyTax.TaxSummary.constructor | models/tax.py:53-58 | a summary of the lines given, its three totals unset |
| LegacyTax.TaxSummary.CalculateTotals | models/tax.py:60-65 | with lines, the totals become the sums of the bases, the taxes and the line totals; without lines nothing changes |
| LegacyTax.CoherentMeaning | models/tax.py:67-72 | totals are incoherent exactly when all three are non-zero and HT plus tax, rounded, is more than 0.02 off the TTC |
| LegacyTax.SmallSummaryCoherent | models/tax.py:60-72 | with one to three lines and no printed totals, the totals `calculate_totals` sets are coherent |
| LegacyReceipt.PaymentValue | models/receipt.py:11-17 | each payment method has a non-empty string value |
| LegacyReceipt.NewTaxLine | models/receipt.py:20-33 | a tax line is built exactly when its rate is within [0, 100] and its amounts are not negative, keeping the fields given; anything else is a validation error |
| LegacyReceipt.TotalFilled | models/receipt.py:28-33 | a given total is kept; a missing one becomes base plus tax to within half a cent, and is never negative |
| LegacyReceipt.RoundedSumNonNegative | models/receipt.py:32 | rounding a non-negative amount keeps it non-negative |
| LegacyReceipt.TotalExample | models/receipt.py:28-33 | a 20 % line of base 50 and tax 10 gets the total 60 |
| LegacyReceipt.ExpectedTax | models/receipt.py:37 | `round(base * rate / 100, 2)` is within half a cent of the exact tax |
| LegacyReceipt.ComputedLineCoherent | models/receipt.py:35-43 | a line built without a total, whose tax is the rate applied to the base and rounded, is coherent at every non-negative tolerance |
| LegacyReceipt.WrongTaxIncoherent | models/receipt.py:37-43 | a line whose tax is farther than the tolerance plus half a cent from the exact tax is not coherent |
| LegacyReceipt.Split | models/receipt.py:91 | `v.split(sep)`: at least one piece, none containing the separator |
| LegacyReceipt.JoinSplit | models/receipt.py:91 | joining the pieces with the separator gives the string back |
| LegacyReceipt.JoinLast | models/receipt.py:91 | a character added to the last piece is added to the joined string |
| LegacyReceipt.SplitAppend | models/receipt.py:91 | a separator and a piece without one add that piece |
| LegacyReceipt.SplitFree | models/receipt.py:91 | a string without the separator is its only piece |
| LegacyReceipt.Zeros | models/receipt.py:99 | n zero digits |
| LegacyReceipt.ZFill | models/receipt.py:99 | `s.zfill(w)` is w long, or s itself when longer |
| LegacyReceipt.ZFillDigits | models/receipt.py:99 | on digits it keeps the value |
| LegacyReceipt.ZerosPrefix | models/receipt.py:99 | leading zeros do not change the value |
| LegacyReceipt.ThreeParts | models/receipt.py:91-93 | three pieces joined by a separator split back into those three |
| LegacyReceipt.NormalizeDayFirst | models/receipt.py:89-99 | `d/m/yyyy` and `d-m-yyyy`, the day not four long, become `yyyy-mm-dd` with month and day padded to two |
| LegacyReceipt.NormalizeYearFirst | models/receipt.py:94-96 | a date whose first piece is four long is kept as it is |
| LegacyReceipt.NormalizeNoSeparator | models/receipt.py:85-100 | a date without `/` or `-` is kept as it is |
| LegacyReceipt.FirstKeyMeaning | models/receipt.py:129-131 | no key matches exactly when none of the remaining keys occurs in the text |
| LegacyReceipt.FirstKeyAt | models/receipt.py:129-131 | the first key of `payment_map` that occurs in the text gives the method |
| LegacyReceipt.NormalizePaymentMeaning | models/receipt.py:102-133 | no method exactly for a falsy value (missing, the empty text, `0`, `0.0` or `False`); any other number or boolean is `OTHER`; otherwise the method of the first key in the lowered, stripped text, or `OTHER` when none occurs |
| LegacyReceipt.ConfidenceBounds | models/receipt.py:188-214 | the score is exactly the sum of the weights present, lies in [0, 1] and is 1 exactly with vendor, date, all three totals, tax lines and no errors |
| LegacyReceipt.MissingErrors | models/receipt.py:141-145 | the missing vendor and the missing total are recorded exactly when they are missing or empty |
| LegacyReceipt.MismatchError | models/receipt.py:148-154 | the amount mismatch is recorded exactly when all three totals are non-zero and HT plus tax, rounded, is more than 0.10 off the total |
| LegacyReceipt.SumErrors | models/receipt.py:157-170 | each sum mismatch is recorded exactly when there are tax lines, that total is non-zero and the sum of the lines is more than 0.50 off it |
| LegacyReceipt.BackfillMeaning | models/receipt.py:172-178 | without tax lines nothing changes; with them each missing or zero total is filled from the lines, the TTC one to within half a cent of HT plus tax, and nothing else changes |
| LegacyReceipt.BackfilledTotalAgrees | models/receipt.py:148-178 | a total backfilled from the lines agrees with HT plus tax, so validating again records no mismatch |
| LegacyReceipt.ScoreSeesEarlierErrors | models/receipt.py:180-184 | the score is computed before the new errors are stored: a fresh receipt with only a total of 100 records the missing vendor, yet scores 0.10 for coherence |
| LegacyReceipt.SummaryMeaning | models/receipt.py:216-227 | the summary rates are the rates of the tax lines, none without lines; the payment is there exactly with a method; it is valid exactly without errors |
| LegacyReceipt.Initial | models/receipt.py:60-62 | the field constraints: the construction goes on exactly when no total is negative, and fails with a validation error otherwise |
| LegacyReceipt.Receipt.constructor | models/receipt.py:46-79 | a receipt holding the fields given |
| LegacyReceipt.Receipt.Create | models/receipt.py:46-186 | `Receipt(...)` fails exactly on a negative total; otherwise it is a new receipt holding the normalised fields after `validate_receipt` |
| LegacyReceipt.Receipt.CalculateConfidence | models/receipt.py:188-214 | `_calculate_confidence` computes `Confidence` of the current fields |
| LegacyReceipt.Receipt.ValidateReceipt | models/receipt.py:135-186 | `validate_receipt` leaves the backfilled totals, the score they give with the errors stored before, and the new errors |
| LegacyReceipt.Receipt.CheckTotals | models/receipt.py:138-154 | the missing vendor, missing total and amount mismatch checks |
| LegacyReceipt.Receipt.CheckLines | models/receipt.py:156-170 | the checks of the totals against the tax lines |
| LegacyReceipt.Receipt.BackfillTotals | models/receipt.py:172-178 | the totals after the backfill, nothing else changed |
| DocumentProcessor.Get | services/document_processor.py:226 | `d.get(k)`: the value at k, or `None` when k is missing |
| DocumentProcessor.Or | services/document_processor.py:227-228 | `a or b`: a when it is truthy, b otherwise |
| DocumentProcessor.SignEnd | services/document_processor.py:241 | an optional sign of `float()` takes at most one character |
| DocumentProcessor.RunDigits | services/document_processor.py:241 | the run of digits at p, up to the first non-digit |
| DocumentProcessor.ExponentOf | services/document_processor.py:241 | no exponent at the end of the text reads as zero |
| DocumentProcessor.Finish | services/document_processor.py:241 | digits with a point and nothing after them read as their fixed-point value |
| DocumentProcessor.SafeFloat | services/document_processor.py:232-243 | `None`, `"null"` and `"NULL"` give nothing; a number is kept; a boolean is 1.0 or 0.0; a list or a dictionary gives nothing |
| DocumentProcessor.StripClean | services/document_processor.py:241 | a text without white space at its ends is already stripped |
| DocumentProcessor.ParsePoint | services/document_processor.py:241 | `float("a.b")` on digits is their fixed-point value |
| DocumentProcessor.ParseWhole | services/document_processor.py:241 | `float("a")` on digits is their value |
| DocumentProcessor.CommaReplaced | services/document_processor.py:239-240 | a decimal comma becomes a point, a point stays |
| DocumentProcessor.SafeFloatDecimal | services/document_processor.py:238-241 | `"a,b"` and `"a.b"` on digits both read as a.b |
| DocumentProcessor.SafeFloatInteger | services/document_processor.py:237-241 | a string of digits reads as its value |
| DocumentProcessor.SafeFloatNoDigit | services/document_processor.py:237-243 | a string without a digit gives nothing |
| DocumentProcessor.NoDigitUnsigned | services/document_processor.py:241-243 | a text without digits is no number |
| DocumentProcessor.SafeFloatTen | tests/test_services.py:136-143 | `10` and `"10"` read as 10.0; `None` and `"null"` give nothing |
| DocumentProcessor.TenValue | tests/test_services.py:139 | `"10"` is the digits of ten |
| DocumentProcessor.SafeFloatWord | tests/test_services.py:144 | `"invalid"` gives nothing |
| DocumentProcessor.IsValidTaxLine | services/document_processor.py:220-230 | a falsy entry is not valid; a truthy entry that is not a dictionary raises on `.get`; a dictionary always gets an answer |
| DocumentProcessor.IsValidTaxLineKeys | services/document_processor.py:225-230 | a dictionary without rate, base or tax keys is not valid; a numeric rate, a non-zero numeric `base_ht` or `tva`, or a numeric `base` or `amount` standing alone makes it valid |
| DocumentProcessor.Items | services/document_processor.py:173 | iterating over a list gives its items, iterating over null, a boolean or a number raises |
| DocumentProcessor.OptionalText | services/document_processor.py:133-140 | an `Optional[str]` field (the receipt's texts, a line's `label` at line 176) is accepted exactly when it is a text or missing, kept as given, and otherwise refused by its own record's validation |
| DocumentProcessor.Outcomes | services/document_processor.py:173-181 | one outcome per entry, in order |
| DocumentProcessor.Information | services/document_processor.py:196-208 | `tax_information` gives at most one line, and raises when it is not a dictionary |
| DocumentProcessor.ParseTaxLines | services/document_processor.py:159-218 | `_parse_tax_lines` computes `TaxLinesOf` |
| DocumentProcessor.ParseLayout | services/document_processor.py:172-193 | the loop over the entries of one layout computes `Layout` |
| DocumentProcessor.KeptStep | services/document_processor.py:173-181 | one pass: a failure so far stays, a failing entry stops, a line is appended, a skipped entry adds nothing |
| DocumentProcessor.KeptFailure | services/document_processor.py:173-181 | once an entry has raised, the rest does not matter |
| DocumentProcessor.KeptSucceed | services/document_processor.py:173-181 | the loop returns exactly when no entry raises |
| DocumentProcessor.KeptLength | services/document_processor.py:173-181 | at most one line per entry |
| DocumentProcessor.KeptFrom | services/document_processor.py:173-181 | every line kept comes from an entry |
| DocumentProcessor.KeptKeep | services/document_processor.py:173-181 | every line an entry gives is kept |
| DocumentProcessor.EntriesMeaning | services/document_processor.py:172-193 | a layout is read exactly when no entry raises; its lines are at most the entries, and exactly those the entries give |
| DocumentProcessor.EntryDefaults | services/document_processor.py:175-181 | a line read from an entry has the rate, base and tax read as floats, zero when missing or unreadable, and a label exactly when the entry has a text one |
| DocumentProcessor.EntrySkipped | services/document_processor.py:174 | a falsy entry and one without amount keys are skipped; a truthy entry that is not a dictionary raises |
| DocumentProcessor.TaxLinesPriority | services/document_processor.py:171-208 | a non-empty `tax_lines` decides alone, then a non-empty `tax_breakdown`, then `tax_information`; without any of them there are no lines |
| DocumentProcessor.InformationMeaning | services/document_processor.py:196-208 | no line exactly without a non-zero rate and a non-zero base or amount; a line exactly when, in addition, the amounts pass the field constraints, and then it carries that rate, base and amount |
| DocumentProcessor.GetOrEmpty | services/document_processor.py:104-114 | `d.get(k, {})` |
| DocumentProcessor.Field | services/document_processor.py:116-118 | `v.get(k)` succeeds exactly on a dictionary, and raises otherwise |
| DocumentProcessor.ParseReceiptData | services/document_processor.py:93-157 | `_parse_receipt_data` builds a new receipt holding `ReceiptData` of the answer, and raises exactly when that does, with the same exception |
| DocumentProcessor.TotalsPreferred | services/document_processor.py:116-118 | a truthy value under `totals` is read, whatever `amounts` holds |
| DocumentProcessor.TotalsFallback | services/document_processor.py:116-118 | without a truthy value under `totals`, the value under `amounts` is read, and `amounts` that is no dictionary raises |
| DocumentProcessor.FromLinesMeaning | services/document_processor.py:120-128 | without lines, or with all three totals non-zero, nothing changes; otherwise each missing or zero total becomes the sum over the lines |
| DocumentProcessor.ReceiptDataFilled | services/document_processor.py:120-157 | with tax lines, the receipt holds them and all three totals; without any totals in the answer they are the sums over the lines |
| DocumentProcessor.ReceiptDataTexts | services/document_processor.py:133-139 | the vendor name and the normalised date come from `vendor` and `transaction` |
| DocumentProcessor.ReceiptDataRaises | services/document_processor.py:131-155 | a `vendor` or `transaction` that is no dictionary raises on `.get`; a vendor name that is a number fails validation |
| DocumentProcessor.BreakdownExample | tests/test_services.py:124-134 | the legacy layout entry of the test gives the line of rate 10, base 100, tax 10, total 110 |
| ExtractionService.Details | core/extraction_service.py:36-44 | one line per merged row |
| ExtractionService.ConvertDetails | core/extraction_service.py:36-44 | the loop that fills `details` computes `Details` |
| ExtractionService.Extract | core/extraction_service.py:19-61 | `extract` computes `Extracted`: the document built from the merged rule results, none without results, or the exception a rule raised |
| ExtractionService.DocumentPresence | core/extraction_service.py:26-31 | for any rule results on a normalised text, `extract` raises exactly when the results are an exception; otherwise there is a document exactly when some rule found something |
| ExtractionService.DocumentFields | core/extraction_service.py:46-60 | a document built from any rule results is marked coherent, has no payment, table or covers, and carries the normalised text and the vendor and date read from it |
| ExtractionService.DocumentConfidence | core/extraction_service.py:57 | the confidence of a document is at most 1.0, at least every rule's confidence capped at 1.0, and is either 1.0 or the confidence of some rule |
| ExtractionService.DocumentNotes | core/extraction_service.py:59 | the notes of a document are those of all the rule results it is built from |
| ExtractionService.DocumentTotals | core/extraction_service.py:33-51 | each total of a document is present exactly when the merged one is, and is that amount in units |
| ExtractionService.DocumentDetails | core/extraction_service.py:36-52 | a document has one line per merged row, in order, and a complete row reads back from its line |
| ExtractionService.DetailsRoundTrip | core/extraction_service.py:36-44 | every row with a rate and all three amounts reads back from its line of `details` |
| ExtractionService.CentsRoundTrip | core/extraction_service.py:33-34 | an amount in cents converted to a float converts back |
| ExtractionService.LineRoundTrip | core/extraction_service.py:37-44 | a row with a rate and all three amounts converts to a line that reads back as the same row |
| ExtractionService.MissingIsZero | core/extraction_service.py:41-43 | `_f(x) or 0.0`: a missing amount and a zero amount give the same line |

## Left out

- I/O and foreign calls are not modelled. This covers the `print` in `ExtractionService.extract`, the logging in `services/document_processor.py`, and `DocumentProcessor.process_receipt`, which does asynchronous image handling, OCR calls and timing. The OCR clients, the web layer and the configuration are not part of this model either.
- `core/parsing/rules/tva_inline_tva.py` is not modelled. The registry does not list it, and its `ParseResult(...)` call omits the required totals, so it would raise `TypeError`.
- The regular-expression engine is not modelled as such. Every pattern is a hand-written scanner equivalent to it on the captures the code uses. The `\s`, `\d`, `\w` and `\b` classes and `str.isalpha`, `isdigit`, `isspace`, `lower` and `upper` are exact on ASCII and Latin-1 only; above U+00FF only the Unicode whitespace characters are classified.
- Floats are modelled as exact reals. Binary rounding of `round(x, 2)`, of `snap_rate`'s comparisons at the exact 0.3 boundaries and of the float confidences mixed with `Decimal("0.93")` is not modelled. The properties that depend on it are stated for exact arithmetic.
- `Decimal` is modelled with unbounded precision. The 28-digit context is not modelled.
- `DocumentProcessor.SafeFloat`: `float()` of infinities, `nan`, underscores between digits and non-ASCII digits is not modelled; such texts give nothing.
- `DocumentProcessor.PaymentOf`: a non-empty JSON list or object given as the payment method is handed on like a truthy number, so it becomes `OTHER`, whereas Python searches `str(value)` for the keys (so `["cb"]` gives `CARD`).
- Pydantic errors are modelled as one `ValidationFailed` value per record. Which fields failed and the error texts are not modelled, and neither is type coercion beyond what the parsers produce.
- The texts of `validation_errors` are not modelled: each error carries the values its message prints, not the formatted message.
- `Receipt.extracted_at` (a clock reading) and `Receipt.raw_data` (excluded from the output) are not modelled, and neither are the computed fields of the pydantic serialisation.
- JSON dictionaries are maps, so the order of their keys is lost. Iterating over a dictionary as a tax-line layout is modelled by its outcome: it raises when some key is non-empty and yields nothing otherwise.
- The `notes` lists are sets. Their order comes from a Python set in `Merger.merge` and depends on string hashing.
- The result object of `ExtractionService.extract`, built with `type("Res", (), ...)`, is modelled as an optional document. The constructor of the service, which only creates the extractor and the merger, is not modelled.
- `BaseRule.Snapped`: stated for exact arithmetic, so a rate exactly 0.3 away from a canonical rate snaps to it, where the binary float comparison may not.
- `LegacyTax.SmallSummaryCoherent`: coherence of the totals `calculate_totals` sets is proved for up to three lines without printed totals. `LegacyTax.SumTotalNear` bounds the drift by half a cent per line, so with more lines the drift can exceed the 0.02 tolerance, and no claim is made there.
