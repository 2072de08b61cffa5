# DTC report engine

A model of the decision core of `app_escaneo_dtc_download_v5.py`, a workshop
assistant for OBD-II powertrain trouble codes (DTCs). Given a free-form line
of codes, it parses the line into a de-duplicated list of code numbers. Each
number is classified into a subsystem tag and a description by an ordered
table of ranges, where the first match wins. For each code it then builds a
report entry:
- a card with the code's `Pnnnn` label, its description and the description
  of its subsystem;
- for a transmission code, a notice;
- for any other code, the diagnostic steps of its subsystem, any special note
  for that code, and the recommendations of its subsystem.

Modules, one per file:

- `wrappers.dfy` (`Wrappers`): `Option`.
- `parser.dfy` (`CodeParser`): `parse_codes`.
  - `Parse` is the specification: strip, upper-case, split on runs of `,`,
    `;` and whitespace, decode each token, drop repeats.
  - `Parse` is `None` when `parse_codes` raises. This happens when a token
    that is all digits after its `P` has more than 4300 digits, the most
    that CPython's `int()` reads from a string by default (leading zeros
    counted). The limit holds in CPython 3.11 and later, and in the 3.10.7,
    3.9.14, 3.8.14 and 3.7.14 security releases; earlier releases have no
    limit. The caller does not catch this ValueError.
  - `ParseCodes` is the imperative version, built from the token loop
    (`CollectCodes`) and the seen-set loop (`DropRepeats`).
- `classifier.dfy` (`Classifier`): `info_codigo`.
  - The detailed tier is kept in source order, written as one rule list per
    hundred; then comes the coarse tier of 100-wide bands, then GENERAL.
  - `FirstMatch` is the first-match-wins semantics of the `if` chain.
- `knowledge.dfy` (`Knowledge`): `SUBS_DESC`, `diag_plantilla` and
  `recomendaciones`.
  - Each step and each recommendation is a constructor with its text given
    once (`StepText`, `RecommendationText`).
  - The tables map a tag to a list of constructors, with the source's
    fallbacks for a tag the table lacks.
- `advisor.dfy` (`Advisor`): `tips_especiales`, as a table of code sets, each
  with its note, checked in source order.
- `report.dfy` (`Report`): `render_entry`.
  - The `Pnnnn` label is `f"P{num:04d}"`, negative numbers included.
  - The entry is a list of blocks rather than HTML.
- `scenario.dfy` (`Scenario`): one input line followed from text to entries.

Some of what the code does is easy to miss; this model follows the code:
- Codes 171, 172, 174 and 175 are classified as FUEL_PRESSURE
  "Trim de combustible fuera de rango (B1/B2)", although the rule list also
  has exact MAF rules for them. The 170..179 rule comes first, so those
  exact rules never fire; the same holds for 325..329 and 335..339 behind
  301..339 (`ShadowedRulesNeverFire`).
- Code 300 does get a note (the random-misfire one).
- The tags are spelled as in the code: `ECT/IAT`, `TPS/APP/ETC`, `CKP/CMP`,
  `IDLE/VSS`, `ECU/REF`, `TRANSMISION`.
- The coarse tier is not dead code. Every number in 1..699 that no detailed
  rule covers reaches it, e.g. 5..29, 220..229 and 370..399
  (`FallbackExactlyInGaps`).

## Model

| member | source | states |
|---|---|---|
| CodeParser.ParseCodes | app_escaneo_dtc_download_v5.py:416-433 | the result is exactly `Parse(text)`: None when a token has more digits than `int()` reads (the uncaught ValueError), otherwise the line stripped, upper-cased, split on separator runs, each token decoded, repeats dropped |
| CodeParser.Parse | app_escaneo_dtc_download_v5.py:416-433 | when the parse succeeds, the list has no repeats and every code in it lies in 1..999 |
| CodeParser.WellFormedCodes | app_escaneo_dtc_download_v5.py:419-432 | the collected codes with repeats dropped have no repeats and lie in 1..999 |
| CodeParser.CollectCodes | app_escaneo_dtc_download_v5.py:419-428 | the token loop fails iff some token is too long for `int()`; otherwise it keeps, in token order, the code of every token that decodes to one |
| CodeParser.DropRepeats | app_escaneo_dtc_download_v5.py:429-432 | the seen-set loop returns `Dedup(codes)`, each code at its first occurrence |
| CodeParser.Split | app_escaneo_dtc_download_v5.py:417 | splitting on separator runs always yields at least one piece, as `re.split` does |
| CodeParser.TokenCode | app_escaneo_dtc_download_v5.py:420-428 | a token is accepted only with a code in 1..999 |
| CodeParser.CodesInRange | app_escaneo_dtc_download_v5.py:426-428 | every collected code lies in 1..999 |
| CodeParser.CodesAppend | app_escaneo_dtc_download_v5.py:419-428 | the codes of two token lists one after the other are the codes of each, concatenated |
| CodeParser.CodesSnoc | app_escaneo_dtc_download_v5.py:419-428 | one more token adds its code, if any, at the end |
| CodeParser.CodesMembers | app_escaneo_dtc_download_v5.py:419-428 | a number is collected iff some token decodes to it |
| CodeParser.RaisesSnoc | app_escaneo_dtc_download_v5.py:419-426 | one more token makes the loop fail iff the loop already failed or that token is too long |
| CodeParser.ShortPieces | app_escaneo_dtc_download_v5.py:426 | tokens of at most 4300 characters never make `int()` raise |
| CodeParser.DedupMembers | app_escaneo_dtc_download_v5.py:429-432 | dropping repeats keeps exactly the same set of codes |
| CodeParser.DedupDistinct | app_escaneo_dtc_download_v5.py:429-432 | the result of dropping repeats has no repeats |
| CodeParser.DedupOrder | app_escaneo_dtc_download_v5.py:429-432 | the kept codes are ordered by their first occurrence in the input |
| CodeParser.DedupOfDistinct | app_escaneo_dtc_download_v5.py:429-432 | a list without repeats comes back unchanged |
| CodeParser.DedupUnique | app_escaneo_dtc_download_v5.py:429-432 | any list with the same codes, no repeats and first-occurrence order is the de-duplicated list |
| CodeParser.SplitPrefix | app_escaneo_dtc_download_v5.py:417 | text without separators before a string joins that string's first piece |
| CodeParser.SplitCongruence | app_escaneo_dtc_download_v5.py:417 | texts that split alike still split alike after the same prefix |
| CodeParser.SplitStartsWithSeparator | app_escaneo_dtc_download_v5.py:417 | the first piece is empty iff the text starts with a separator; the empty text splits into one empty piece |
| CodeParser.SeparatorRun | app_escaneo_dtc_download_v5.py:417 | a run of two separators splits like one |
| CodeParser.SeparatorKind | app_escaneo_dtc_download_v5.py:417 | comma, semicolon and whitespace separate alike |
| CodeParser.SplitJoin | app_escaneo_dtc_download_v5.py:417 | non-empty pieces without separators, joined by a separator, split back into those pieces |
| CodeParser.UpperOfUpper | app_escaneo_dtc_download_v5.py:417 | upper-casing text without lower-case letters changes nothing |
| CodeParser.StripOfTrimmed | app_escaneo_dtc_download_v5.py:417 | stripping text without surrounding whitespace changes nothing |
| CodeParser.OnlyOnePrefix | app_escaneo_dtc_download_v5.py:422-425 | only one leading P is removed, so "PP…" is rejected |
| CodeParser.PrefixIsOptional | app_escaneo_dtc_download_v5.py:422-423 | a token decodes the same with or without one leading P |
| CodeParser.LeadingZeros | app_escaneo_dtc_download_v5.py:424-427 | leading zeros do not change the decoded code while the digits number at most 4300; past that the token is too long for `int()` |
| CodeParser.TokensAccepted | app_escaneo_dtc_download_v5.py:420-428 | "P0171", "0420" and "P300" decode to 171, 420 and 300 |
| CodeParser.TokenLongPadding | app_escaneo_dtc_download_v5.py:424-428 | "0000000999" decodes to 999: leading zeros within the limit are read through |
| CodeParser.PaddedCode | app_escaneo_dtc_download_v5.py:416-433 | "P", zeros and "171" parses to [171] while the digits number at most 4300, and fails with the ValueError beyond that |
| CodeParser.TokensMalformed | app_escaneo_dtc_download_v5.py:420-425 | "PP171", "P", "", "P01A1" and "GARBAGE" are skipped |
| CodeParser.TokensOutOfRange | app_escaneo_dtc_download_v5.py:426-428 | "0", "0000", "1000" and "P1000" are skipped as outside 1..999 |
| CodeParser.HornerSnoc | app_escaneo_dtc_download_v5.py:426 | one more digit multiplies the value read so far by ten and adds the digit |
| CodeParser.HornerZeros | app_escaneo_dtc_download_v5.py:426 | leading zeros add nothing to the value read |
| CodeParser.ParseJoined | app_escaneo_dtc_download_v5.py:416-433 | upper-case pieces joined by spaces parse to the de-duplicated codes of the pieces, or fail when one piece is too long for `int()` |
| CodeParser.ParseExample | app_escaneo_dtc_download_v5.py:416-433 | "P0300 P0171 P0300 0420" parses, without error, to [300, 171, 420] |
| CodeParser.ParseLowerCaseAndComma | app_escaneo_dtc_download_v5.py:416-433 | "p0171, P300" parses, without error, to [171, 300] |
| CodeParser.ParseGarbage | app_escaneo_dtc_download_v5.py:416-433 | text without codes parses to the empty list, without error |
| Classifier.FirstMatch | app_escaneo_dtc_download_v5.py:343-400 | the chosen rule covers the code and no earlier rule does; none is chosen iff no rule covers it |
| Classifier.FirstIs | app_escaneo_dtc_download_v5.py:343-400 | the first covering rule is the one that answers |
| Classifier.NeverFires | app_escaneo_dtc_download_v5.py:354-358 | a rule inside an earlier rule's range is never the first match |
| Classifier.LookupAppend | app_escaneo_dtc_download_v5.py:393-399 | the coarse tier answers only when the detailed tier has no rule for the code |
| Classifier.LookupConcat | app_escaneo_dtc_download_v5.py:344-393 | when only one group of rules covers a code, that group answers |
| Classifier.LookupConcatNone | app_escaneo_dtc_download_v5.py:344-393 | when no group covers a code, the whole tier has no answer |
| Classifier.ChunkOf | app_escaneo_dtc_download_v5.py:344-393 | every code of 1..999 falls in one hundred's group |
| Classifier.Placed0 | app_escaneo_dtc_download_v5.py:344-347 | the rules for 1..99 stay inside 1..99, are engine codes and use known tags |
| Classifier.Placed1 | app_escaneo_dtc_download_v5.py:348-360 | the rules for 100..199 stay inside 100..199, are engine codes and use known tags |
| Classifier.Placed2 | app_escaneo_dtc_download_v5.py:361-367 | the rules for 200..299 stay inside 200..299, are engine codes and use known tags |
| Classifier.Placed3 | app_escaneo_dtc_download_v5.py:368-373 | the rules for 300..399 stay inside 300..399, are engine codes and use known tags |
| Classifier.Placed4 | app_escaneo_dtc_download_v5.py:374-382 | the rules for 400..499 stay inside 400..499, are engine codes and use known tags |
| Classifier.Placed5 | app_escaneo_dtc_download_v5.py:383-387 | the rules for 500..599 stay inside 500..599, are engine codes and use known tags |
| Classifier.Placed6 | app_escaneo_dtc_download_v5.py:388-392 | the rules for 600..699 stay inside 600..699, are engine codes and use known tags |
| Classifier.FallbackPlaced | app_escaneo_dtc_download_v5.py:394-399 | the coarse bands stay inside 1..699, are engine codes and use known tags |
| Classifier.ChunkPlaced | app_escaneo_dtc_download_v5.py:344-393 | each group, the transmission rule included, stays inside its hundred, with engine false only for 700..999 |
| Classifier.PlacedMisses | app_escaneo_dtc_download_v5.py:344-393 | a group has no answer for a code outside its range |
| Classifier.PlacedAnswer | app_escaneo_dtc_download_v5.py:344-399 | a group's answer lies in its range, has its engine flag, a known tag other than GENERAL, and TRANSMISION exactly when not engine |
| Classifier.DetailedByChunk | app_escaneo_dtc_download_v5.py:344-393 | the detailed tier answers a code as the group of its hundred does |
| Classifier.RulesByChunk | app_escaneo_dtc_download_v5.py:344-399 | the whole table answers a code as the group of its hundred, or else the coarse tier |
| Classifier.FallbackBand | app_escaneo_dtc_download_v5.py:394-399 | the coarse tier answers with 1..199 as one band, then one band per hundred up to 699 |
| Classifier.TableAnswers | app_escaneo_dtc_download_v5.py:343-399 | the rule table answers exactly the codes of 1..999, always with a known tag other than GENERAL |
| Classifier.Classify | app_escaneo_dtc_download_v5.py:343-400 | every integer gets a known tag; the tag is GENERAL iff the code is outside 1..999 |
| Classifier.OutOfRange | app_escaneo_dtc_download_v5.py:400 | no rule covers a code outside 1..999 |
| Classifier.TransmissionCodes | app_escaneo_dtc_download_v5.py:393 | every code of 700..999 is the transmission reference code |
| Classifier.EngineCodes | app_escaneo_dtc_download_v5.py:344-399 | every code of 1..699 is an engine code with a tag other than TRANSMISION |
| Classifier.EngineScope | app_escaneo_dtc_download_v5.py:343-400 | a code is outside the engine scope iff it lies in 700..999, iff its tag is TRANSMISION |
| Classifier.ShadowedRulesNeverFire | app_escaneo_dtc_download_v5.py:354-371 | the exact 171/172/174/175 rules and the 325..329 and 335..339 rules never answer |
| Classifier.FuelTrimRange | app_escaneo_dtc_download_v5.py:354-358 | all of 170..179 is the FUEL_PRESSURE fuel-trim code, the lean and rich codes included |
| Classifier.CylinderMisfireRange | app_escaneo_dtc_download_v5.py:369-371 | all of 301..339 is the single-cylinder misfire, the knock and CKP codes included |
| Classifier.RandomMisfire | app_escaneo_dtc_download_v5.py:368-369 | 300 keeps its own random-misfire answer |
| Classifier.CatalystCodes | app_escaneo_dtc_download_v5.py:378-379 | 420 and 430 are the CAT codes of banks 1 and 2 |
| Classifier.Gaps0 | app_escaneo_dtc_download_v5.py:344-347 | in 1..99 the detailed tier has no rule exactly for the gaps 5..29 and 40..99 |
| Classifier.Gaps1 | app_escaneo_dtc_download_v5.py:348-360 | every code of 100..199 has a detailed rule |
| Classifier.Gaps2 | app_escaneo_dtc_download_v5.py:361-367 | in 200..299 the detailed tier has no rule exactly for 220..229 and 270..279 |
| Classifier.Gaps3 | app_escaneo_dtc_download_v5.py:368-373 | in 300..399 the detailed tier has no rule exactly for 370..399 |
| Classifier.Gaps4 | app_escaneo_dtc_download_v5.py:374-382 | in 400..499 the detailed tier has no rule exactly for 403..409, 421..429, 431..439, 470..479 and 490..499 |
| Classifier.Gaps5 | app_escaneo_dtc_download_v5.py:383-387 | in 500..599 the detailed tier has no rule exactly for 501..504, 506..519, 530..549 and 570..599 |
| Classifier.Gaps6 | app_escaneo_dtc_download_v5.py:388-392 | in 600..699 the detailed tier has no rule exactly for 630..649, 651..679 and 690..699 |
| Classifier.FallbackExactlyInGaps | app_escaneo_dtc_download_v5.py:394-399 | in 1..699 the coarse tier answers exactly the gap codes, with the band of the code's hundred |
| Classifier.FallbackExamples | app_escaneo_dtc_download_v5.py:394-399 | 5, 225, 380, 405, 575 and 695 get the coarse tags FUEL_PRESSURE, INJECTOR, MISFIRE, EGR, IDLE/VSS and ECU/REF |
| Classifier.ScopeBoundaries | app_escaneo_dtc_download_v5.py:393-400 | 0 and 1000 are GENERAL; 1 and 699 are engine codes; 700 and 999 are transmission codes |
| Classifier.RangeBoundaries | app_escaneo_dtc_download_v5.py:344-347 | 4 is the volume-regulator code, 5..29 and 40..99 the coarse fuel band, 30 and 39 O2_HEATER |
| Classifier.InjectorBoundary | app_escaneo_dtc_download_v5.py:361 | 219 is the last injector-circuit code; 220 falls to the coarse band |
| Classifier.CoilBoundary | app_escaneo_dtc_download_v5.py:373 | 369 is the last coil code; 370 falls to the coarse band |
| Knowledge.DiagnosticSteps | app_escaneo_dtc_download_v5.py:173-264 | without an extra step the list is the tag's template; with one, the template followed by that step last |
| Knowledge.Description | app_escaneo_dtc_download_v5.py:153-171 | exactly the known tags have a description |
| Knowledge.SystemText | app_escaneo_dtc_download_v5.py:440 | a known tag is shown as its description; any other tag is shown as itself |
| Knowledge.StepTemplate | app_escaneo_dtc_download_v5.py:173-264 | every tag gets at least three steps |
| Knowledge.StepCoverage | app_escaneo_dtc_download_v5.py:258-261 | exactly the known tags other than TRANSMISION and GENERAL have their own steps; the others get the four generic steps |
| Knowledge.RecommendationCoverage | app_escaneo_dtc_download_v5.py:341 | exactly the known tags have their own recommendations; any other tag gets the GENERAL ones |
| Knowledge.Recommendations | app_escaneo_dtc_download_v5.py:267-341 | every tag gets at least one recommendation |
| Advisor.SpecialNotes | app_escaneo_dtc_download_v5.py:402-414 | the tests in source order return `Notes(n)`, the notes of the rules whose codes hold n |
| Advisor.Notes | app_escaneo_dtc_download_v5.py:402-414 | a code gets at most one note, and one iff it is one of 171, 172, 174, 175, 300, 335, 340, 420, 430 |
| Advisor.NotedCodesNamed | app_escaneo_dtc_download_v5.py:404-413 | the codes that carry a note are exactly those named by one of the five tests |
| Advisor.NotesUnfolded | app_escaneo_dtc_download_v5.py:402-414 | the notes of n are the five tests' notes in source order, each present iff n is among its codes |
| Advisor.AtMostOne | app_escaneo_dtc_download_v5.py:402-414 | with pairwise disjoint code sets, at most one note applies, and one does iff some set holds n |
| Advisor.NoteRulesDisjoint | app_escaneo_dtc_download_v5.py:404-413 | the five code sets are pairwise disjoint |
| Advisor.SharedNotes | app_escaneo_dtc_download_v5.py:404-413 | 171/174, 172/175, 420/430 and 335/340 share their notes; 300 has the misfire note |
| Report.Decimal | app_escaneo_dtc_download_v5.py:436 | a number's decimal digits: at least one digit, at most three below 1000 |
| Report.DecimalValue | app_escaneo_dtc_download_v5.py:436 | the digits read back as the number |
| Report.Format04 | app_escaneo_dtc_download_v5.py:436 | `{num:04d}` has at least four characters, exactly four for 0..9999, a leading minus for a negative number, and for a number that is not negative digits that read back as the number |
| Report.Label | app_escaneo_dtc_download_v5.py:436 | the label is P and at least four characters; exactly five characters for 0..9999 |
| Report.CodeLabels | app_escaneo_dtc_download_v5.py:436 | 171 and 5 are labelled P0171 and P0005 |
| Report.WideLabel | app_escaneo_dtc_download_v5.py:436 | 12345 keeps all its digits (P12345) |
| Report.NegativeLabel | app_escaneo_dtc_download_v5.py:436 | -7 is zero-padded after its sign (P-007) |
| Report.LabelCode | app_escaneo_dtc_download_v5.py:436 | the label of a code in 1..999 is a single upper-case token that decodes back to the code |
| Report.CodesOfLabels | app_escaneo_dtc_download_v5.py:419-428 | the labels of codes in 1..999 decode back to the codes, in order |
| Report.ParseLabels | app_escaneo_dtc_download_v5.py:416-433 | the labels written out with spaces parse, without error, back to the codes without repeats; a list without repeats comes back as it was |
| Report.ParseLabel | app_escaneo_dtc_download_v5.py:416-433 | one code's label parses, without error, to that code alone |
| Report.ParseStable | app_escaneo_dtc_download_v5.py:416-433 | when a text parses, writing its codes as labels and parsing again gives the same list |
| Report.RenderEntry | app_escaneo_dtc_download_v5.py:435-462 | the entry built part by part is `Entry(n)` |
| Report.Entry | app_escaneo_dtc_download_v5.py:435-462 | the entry opens with the card under the code's label; 700..999 gets the card and the transmission notice only; every other code gets the card, the diagnosis and the recommendations |
| Report.EntryCard | app_escaneo_dtc_download_v5.py:436-442 | the card holds the description and the tag's own description; the raw-tag fallback never shows |
| Report.EntryNotes | app_escaneo_dtc_download_v5.py:451-456 | the diagnosis has notes iff the code has a note, and then exactly that note |
| Report.EngineEntryKnowledge | app_escaneo_dtc_download_v5.py:450-459 | a code of 1..699 gets its own tag's steps, with no extra step, and its own tag's recommendations |
| Report.GeneralEntryKnowledge | app_escaneo_dtc_download_v5.py:450-459 | a code outside 1..999 gets the generic steps and the GENERAL recommendations |
| Scenario.CommaSpaceJoin | app_escaneo_dtc_download_v5.py:417 | comma-space separators split like single spaces |
| Scenario.ScenarioSplit | app_escaneo_dtc_download_v5.py:417 | "P0171, P0300, P0420" splits into its three codes |
| Scenario.ScenarioCodes | app_escaneo_dtc_download_v5.py:419-428 | those three tokens decode to 171, 300 and 420 |
| Scenario.ScenarioInput | app_escaneo_dtc_download_v5.py:416-433 | "P0171, P0300, P0420" parses, without error, to [171, 300, 420] |
| Scenario.LeanEntry | app_escaneo_dtc_download_v5.py:354 | 171 is the fuel-trim code, and its entry has the lean-mixture note |
| Scenario.MisfireEntry | app_escaneo_dtc_download_v5.py:368 | 300 is the random-misfire code, and its entry has the random-misfire note |
| Scenario.CatalystEntry | app_escaneo_dtc_download_v5.py:378 | 420 is the bank-1 catalyst code, and its entry has the catalyst note |
| Scenario.TransmissionEntry | app_escaneo_dtc_download_v5.py:393 | 850 is a transmission code, and its entry is the card and the notice |

## Left out

- The web interface is not part of this model. That covers the pywebio server (`start_server`), the `put_*` output calls, the `input_group` form, the toasts and popups, and the theme and social buttons. The PDF export (`export_pdf_download`) and the file download are left out too.
- The HTML markup of an entry is not modelled: the `div`/`chip`/`ol`/`ul`/`li` wrappers and the closing `</div>`. The entry is the ordered list of its parts.
  - The card, step, recommendation and note texts are kept.
  - `TransmissionNotice` is a constant constructor. It stands for the two fixed sentences of the transmission list (lines 446-447) and does not hold their text.
  - The headings "Diagnóstico (nivel taller)" (line 453) and "🧾 Recomendaciones" (line 459) are left out, as is the "Notas:" prefix of the note paragraph.
- Character classes are ASCII only:
  - whitespace is space, tab, newline, carriage return, vertical tab, form feed and 0x1C..0x1F, the ASCII characters Python's `\s` and `str.strip()` match;
  - `upper()` changes only `a`..`z`;
  - `isdigit()` accepts only `0`..`9`.
  
  Python's non-ASCII whitespace, case mapping and digit classes are not modelled. For example, a superscript digit passes `isdigit()` but makes `int()` raise.
- The `int()` digit limit is fixed at 4300, CPython's default. `sys.set_int_max_str_digits` and `PYTHONINTMAXSTRDIGITS` can change it or turn it off, and CPython releases before 3.11 (other than the 3.10.7, 3.9.14, 3.8.14 and 3.7.14 security releases) have no limit; none of this is modelled.
- `DiagnosticSteps`: the source builds a fresh dictionary on every call, so appending the extra step aliases nothing. The model returns a new list and does not model the in-place `append`.
- `ParseCodes`: the two loops of `parse_codes` are the helper methods `CollectCodes` and `DropRepeats`, which `ParseCodes` calls in turn. The ValueError is the `None` result, not an exception.
