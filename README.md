# Salty / saltworks — a Dafny model of its core logic

This project models the logic of three parts of the saltworks repository and proves what that logic promises:

- **The salinity widget** (`src/widget.js`). Each slider reading is clamped into its range. The sodium loss is estimated with the multiplicative formula. The loss is put into one of five tiers. The tier's recommendation is looked up, and the loss is shown in mg or g. `updateCalculation` keeps one piece of memory, `lastStatus`. It redraws the status message and the recommendation only when the tier's level changes.
- **saltlint** (`tools/saltlint.py`), the brand-voice gate:
  - the whole-word, case-insensitive search for `sweat`, `sweaty`, `perspire` and `perspiration`;
  - `scan_file` and the suffix and non-empty filter of `scan_directory`, over files given as `(path, lines)` pairs;
  - `format_report`;
  - the exit status of `main`.
- **The Trello board initialiser** (`scripts/trello_init.py`). `validate_spec` is modelled over a JSON datatype with Python's view of the values: truthiness, hashing with `True == 1 == 1.0`, `dict.get`, and `len`. Also modelled are the dry-run branches of `create_board`, `create_lists`, `create_labels`, `create_checklist` and `create_cards`. A Python exception becomes a returned `Failure`.

Files:

- `wrappers.dfy`: `Option` and `Result`.
- `text.dfy` (module `Text`): decimal rendering of integers and ASCII lower-casing. All three parts use it.
- `salinity.dfy` (module `Salinity`): the pure pipeline of the widget.
- `salinity_widget.dfy` (module `SalinityWidget`):
  - `Next`, one run of `updateCalculation` over the displayed texts and `lastStatus`;
  - the sticky-copy invariant;
  - the class `Widget`, whose `UpdateCalculation` changes those fields in place.
- `saltlint.dfy` (module `SaltLint`):
  - the matcher, the spec functions, and the methods `ScanFile`, `ScanDirectory` and `FormatReport`, proved against the spec functions;
  - the exit status.
- `trello.dfy` (module `TrelloInit`):
  - the JSON model and `Validate`, with the method `ValidateSpec`;
  - `CreateBoard`, `DryRunIds` with the methods `CreateListsDryRun` and `CreateLabelsDryRun`, and `CardsDryRun` with the method `CreateCardsDryRun`.

Each loop of the core is a method with loop invariants, proved against a function, except the label loop of `create_cards`, which is the function `LabelsIssue` inside the per-card checks of `CreateCardsDryRun`. The lemmas state the properties of those functions.

## Model

| member | source | states |
|---|---|---|
| Text.NatToDecimal | tools/saltlint.py:88-89 | the decimal text of a natural number is non-empty, all digits, reads back as the number and has no leading zero |
| Text.NatToDecimalInjective | scripts/trello_init.py:164 | different numbers have different decimal texts, so the numbered dry-run ids never clash |
| Text.IntToString | src/widget.js:310-313 | the text of an integer is its digits, after a '-' when it is negative, and reads back as the integer |
| Text.ToLower | src/widget.js:215 | lower-casing keeps the length and lower-cases each character, leaving non-letters alone |
| Text.ToLowerIdempotent | src/widget.js:215 | lower-casing twice equals lower-casing once |
| Salinity.Clamp | src/widget.js:283-286 | NaN gives the default; otherwise, with min <= max, the result is in [min, max], equals an in-range input, and is min below the range and max above it; with max < min it is max |
| Salinity.ClampIdempotent | src/widget.js:283-286 | clamping an already clamped reading returns it unchanged |
| Salinity.Normalize | src/widget.js:290-307 | the four clamped values lie in their sliders' ranges; a NaN reading becomes that slider's default |
| Salinity.NormalizeKeepsInRange | src/widget.js:290-307 | readings already inside their ranges are kept as they are |
| Salinity.TempFactor | src/widget.js:156-162 | exactly 1 at or below 70F, 1 + (t-70)*0.02 up to 85F, and 1 + (t-70)*0.02 + (t-85)*0.03 above 85F; always >= 1 |
| Salinity.TempFactorMonotone | src/widget.js:156-162 | a higher temperature never lowers the heat factor |
| Salinity.IntensityFactor | src/widget.js:165 | the effort factor is at least 0.44 over the slider's range |
| Salinity.IntensityFactorMonotone | src/widget.js:165 | a higher intensity never lowers the effort factor |
| Salinity.HumidityFactor | src/widget.js:167-174 | exactly 1 at or below 40%, 1 + (h-40)*0.01 up to 70%, and 1 + (h-40)*0.01 + (h-70)*0.015 above 70%; always >= 1 |
| Salinity.HumidityFactorMonotone | src/widget.js:167-174 | a higher humidity never lowers the humidity factor |
| Salinity.RoundHalfUp | src/widget.js:179 | `Math.round` gives the integer n with n - 0.5 <= v < n + 0.5 |
| Salinity.RoundHalfUpMonotone | src/widget.js:179 | rounding keeps order |
| Salinity.SodiumLoss | src/widget.js:149-180 | over the clamped ranges the estimate is never negative |
| Salinity.ExactLossNonNegative | src/widget.js:177 | the unrounded product is >= 0 for a non-negative duration and an intensity of at least 1 |
| Salinity.ProductMonotone | src/widget.js:177 | the product of four non-negative factors grows when any factor grows |
| Salinity.SodiumLossMonotone | src/widget.js:149-180 | over the clamped ranges, raising any of duration, temperature, intensity or humidity never lowers the estimate |
| Salinity.SodiumLossWorkedValues | src/widget.js:26-59 | the defaults (60, 75, 5, 50) give 726 mg, the minima 66 mg and the maxima 15996 mg |
| Salinity.Classify | src/widget.js:197-209 | the tier returned is the one whose half-open band holds the loss |
| Salinity.ClassifyUnique | src/widget.js:186-209 | a loss lies in the band of a tier exactly when that tier is the one returned |
| Salinity.ClassifyMonotone | src/widget.js:197-209 | a larger loss never yields a lower tier |
| Salinity.ClassifyBoundaries | src/widget.js:186-192 | 299 is MINIMAL and 300 LOW, 599 LOW and 600 MODERATE, 999 MODERATE and 1000 HIGH, 1499 HIGH and 1500 EXTREME |
| Salinity.Messages | src/widget.js:62-108 | each tier has three candidate messages |
| Salinity.LevelInjective | src/widget.js:331 | two tiers have equal level names exactly when they are the same tier, so comparing `level` strings compares tiers |
| Salinity.GetRecommendation | src/widget.js:214-217 | the result is always an entry of RECOMMENDATIONS; a key that is not in the table gives the moderate entry |
| Salinity.RecommendationForTier | src/widget.js:111-117 | each of the five level names, lower-cased, finds its own entry |
| Salinity.GetRecommendationIgnoresCase | src/widget.js:214-217 | looking up a lower-cased level gives the same result as the level itself |
| Salinity.RandomMessage | src/widget.js:222-224 | with a draw in [0, 1), a non-empty array yields one of its own elements; an empty one yields undefined |
| Salinity.RandomMessageReachesEach | src/widget.js:222-224 | the draw k/n picks the k-th of n messages, so every message can be shown |
| Salinity.FormatSodiumLoss | src/widget.js:229-234 | below 1000 the text is the integer followed by "mg"; from 1000 on it is the whole grams without a leading zero, a dot, one digit and "g"; the tenths shown are the loss rounded to the nearest tenth of a gram, and within 50 mg of it at a tie |
| Salinity.FormatSodiumLossMilligrams | src/widget.js:233 | 999 shows as "999mg" and 726 as "726mg" |
| Salinity.FormatSodiumLossGrams | src/widget.js:230-231 | 1000 shows as "1.0g" and 1540 as "1.5g", two losses that are not tenths-digit ties |
| SalinityWidget.NextConsistent | src/widget.js:289-340 | every update keeps the invariant (level, card class and recommendation of the last status, message one of its messages), and `lastStatus` becomes the tier of the readings |
| SalinityWidget.NextRecommendation | src/widget.js:330-334 | after any update the recommendation is the table entry of the current tier and the message is one of the tier's messages, redrawn or not |
| SalinityWidget.NextKeepsCopyWithinTier | src/widget.js:331 | when the level is unchanged, the message and recommendation are left as they were, whatever the draw |
| SalinityWidget.NextRedrawsOnTierChange | src/widget.js:331-334 | with no previous status or a different level, the message is the drawn one and the recommendation is looked up afresh |
| SalinityWidget.NextIdempotent | src/widget.js:289-340 | recomputing with unchanged readings changes nothing, whatever the second draw |
| SalinityWidget.MaximaAreExtreme | src/widget.js:26-59 | the slider maxima show EXTREME with the extreme advice |
| SalinityWidget.Widget.constructor | src/widget.js:278 | the widget starts with the placeholder texts and no last status, and meets the invariant |
| SalinityWidget.Widget.UpdateCalculation | src/widget.js:289-340 | the fields become exactly `Next` of the old fields, and the invariant is kept |
| SalinityWidget.DefaultReadingsModerate | src/widget.js:418-426 | sliders at their defaults read as 726 mg, tier MODERATE |
| SalinityWidget.FirstCalculation | src/widget.js:356-357 | the first calculation shows MODERATE, the moderate advice and one of the moderate messages |
| SalinityWidget.FirstCalculationLoss | src/widget.js:356-357 | the first calculation shows the loss as "726mg" |
| SalinityWidget.InitWidget | src/widget.js:239-357 | the widget built and run once on default readings is in the state `Next` gives for the placeholders |
| SaltLint.FoldsAtChars | tools/saltlint.py:115 | the case-insensitive comparison at a position holds exactly when every character, lower-cased, equals the word's |
| SaltLint.MatchFromSound | tools/saltlint.py:114-115 | what the alternation matches at a position is one of the words, occurring there whole |
| SaltLint.MatchFromNone | tools/saltlint.py:114-115 | the alternation fails at a position exactly when no word occurs there whole |
| SaltLint.MatchIsHit | tools/saltlint.py:114-115 | a match is non-empty, lies inside the line, sits between two word boundaries and lower-cases to a forbidden word |
| SaltLint.MatchesSound | tools/saltlint.py:37-39 | every match `finditer` yields is a whole-word, case-insensitive occurrence of a forbidden word |
| SaltLint.MatchesOrdered | tools/saltlint.py:37-39 | the matches come left to right and do not overlap |
| SaltLint.HitIsWholeWord | tools/saltlint.py:114 | a reported word is preceded and followed by a non-word character or the line's edge |
| SaltLint.MatchAtOccurrence | tools/saltlint.py:114-115 | where a word occurs whole, the alternation matches exactly that word, so `sweaty` is never cut to `sweat` |
| SaltLint.MatchesComplete | tools/saltlint.py:37-39 | every whole-word occurrence of a forbidden word in a line is among the matches |
| SaltLint.NoOccurrenceNoMatches | tools/saltlint.py:37-39 | a line with no whole-word occurrence has no matches |
| SaltLint.ForbiddenWordList | tools/saltlint.py:15-20 | the four forbidden words are non-empty, lower-case letters and distinct |
| SaltLint.LineMatchesSound | tools/saltlint.py:114-115 | every match of the forbidden-word pattern is a whole-word match of one of the four words |
| SaltLint.SweatyReportedWhole | tools/saltlint.py:15-20 | in "Sweaty!" the one match is "Sweaty" at 0, in the line's own case |
| SaltLint.SweatshirtNotReported | tools/saltlint.py:15-20 | "sweatshirt" has no match |
| SaltLint.StripSpec | tools/saltlint.py:40 | the stripped line is the slice of the line between its leading and trailing white space, and neither starts nor ends with white space |
| SaltLint.StripIdempotent | tools/saltlint.py:40 | stripping twice equals stripping once |
| SaltLint.LineViolationsAt | tools/saltlint.py:38-40 | one line gives one entry per match, in order, each with the line number, the stripped line and the matched text |
| SaltLint.ScanFile | tools/saltlint.py:25-57 | the nested loops append exactly the entries of `FileViolations`, line by line and match by match |
| SaltLint.FileViolationsSound | tools/saltlint.py:35-40 | every entry has a 1-based line number within the file, the stripped text of that line and a word that lower-cases to a forbidden word |
| SaltLint.FileViolationsOrdered | tools/saltlint.py:35-40 | entries come in line order |
| SaltLint.FileViolationsComplete | tools/saltlint.py:35-40 | every whole-word occurrence in every line is reported, with its line number, the stripped line and the text as written |
| SaltLint.FileNameLastComponent | tools/saltlint.py:73 | the file name is the part of the path after its last '/' |
| SaltLint.LastDot | tools/saltlint.py:73 | the index found holds the name's last dot, and none means the name has no dot |
| SaltLint.SuffixIsExtension | tools/saltlint.py:73 | a path's suffix is the extension e exactly when its file name is longer than e and ends with it |
| SaltLint.ScanExtensionsAreExtensions | tools/saltlint.py:23 | the four scanned suffixes are dot-and-letters extensions |
| SaltLint.ScanDirectory | tools/saltlint.py:59-78 | a missing directory gives the empty map; otherwise the loop builds exactly `DirectoryViolations` |
| SaltLint.DirectoryViolationsFrom | tools/saltlint.py:73-76 | every path in the result is a file with a scanned suffix whose entries it maps to, and that list is non-empty |
| SaltLint.DirectoryViolationsHas | tools/saltlint.py:73-76 | every file with a scanned suffix and at least one entry is in the result |
| SaltLint.StrLtTotal | tools/saltlint.py:92 | Python's string order is total, as well as irreflexive, asymmetric and transitive (the three lemmas beside it) |
| SaltLint.LeastExists | tools/saltlint.py:92 | every non-empty set of paths has a least path |
| SaltLint.SortedPathsMembers | tools/saltlint.py:92 | the sorted paths are exactly the map's paths, each once |
| SaltLint.SortedPathsSorted | tools/saltlint.py:92 | the sorted paths are strictly increasing |
| SaltLint.TotalRemove | tools/saltlint.py:86 | the total count is the entries of any one file plus the total of the others, so the order of summing does not matter |
| SaltLint.Preview | tools/saltlint.py:97 | the preview is the line itself up to 80 characters and its first 80 characters plus "..." beyond; it is at most 83 long |
| SaltLint.CountViolations | tools/saltlint.py:86 | the loop adds up to the total number of entries over all files |
| SaltLint.FileSection | tools/saltlint.py:93-99 | the section of one file is its "File:" line, two lines per entry and a blank line |
| SaltLint.AllSections | tools/saltlint.py:92-99 | the loop emits the file sections in sorted path order |
| SaltLint.FormatReport | tools/saltlint.py:80-103 | the method returns exactly `Report`: the PASS text for an empty map, the joined report lines otherwise |
| SaltLint.SplitJoin | tools/saltlint.py:103 | splitting the joined report at newlines gives back its lines, so the join is reversible |
| SaltLint.ReportLength | tools/saltlint.py:85-101 | a failing report has 6 + 2 * (total entries) + 2 * (files) lines |
| SaltLint.TotalAtLeastFiles | tools/saltlint.py:86-89 | with no file listed without entries, the total is at least the number of files affected |
| SaltLint.ReportLinesEnds | tools/saltlint.py:85-101 | the report lines start with the FAIL header and end with the footer |
| SaltLint.ReportFails | tools/saltlint.py:85-103 | a non-empty report starts with the FAIL header and a newline, and ends with a newline and the footer |
| SaltLint.PassWhenClean | tools/saltlint.py:82-83 | with no violations the report is exactly the PASS text |
| SaltLint.FailWhenDirty | tools/saltlint.py:82-85 | with violations the report is not the PASS text |
| SaltLint.ExitCode | tools/saltlint.py:130-133 | the exit status is 1 exactly when the violations map is non-empty, and is always 0 or 1 |
| SaltLint.ExitCodeMatchesReport | tools/saltlint.py:126-133 | the status is 0 exactly when the printed report is the PASS text |
| TrelloInit.KeyOf | scripts/trello_init.py:109 | a value can be a set member or dict key unless it is an array or object |
| TrelloInit.Len | scripts/trello_init.py:189 | `len` is defined exactly on strings, arrays and objects |
| TrelloInit.TruthyIsNonEmpty | scripts/trello_init.py:101 | for values with a length, truthiness is non-emptiness |
| TrelloInit.FirstIssueNone | scripts/trello_init.py:105-107 | a checking loop raises nothing exactly when no entry has an issue |
| TrelloInit.FirstIssueAt | scripts/trello_init.py:105-107 | what a checking loop raises is the issue of its first bad entry |
| TrelloInit.KeySetSome | scripts/trello_init.py:109 | `set(list_names)` succeeds exactly when every name is hashable |
| TrelloInit.KeySetDistinct | scripts/trello_init.py:109-110 | the set is no larger than the list, and as large exactly when no two names are equal |
| TrelloInit.ListsChecked | scripts/trello_init.py:105-108 | when the list loop passes, every list is an object with a truthy, hashable name |
| TrelloInit.NamesDistinct | scripts/trello_init.py:109-110 | no repeated name in `list_names` means no two lists share a name |
| TrelloInit.CardChecked | scripts/trello_init.py:125-128 | a card passes exactly when it is an object with a truthy name whose `list` is one of the list names |
| TrelloInit.CardsChecked | scripts/trello_init.py:124-128 | the card loop passes exactly when every card refers to a declared list |
| TrelloInit.LabelsChecked | scripts/trello_init.py:116-118 | the label loop passes exactly when every label is an object with the keys `name` and `color`, whatever their values |
| TrelloInit.ValidateSound | scripts/trello_init.py:94-128 | a spec that raises nothing is well formed: board object with a truthy name, non-empty lists with truthy distinct names, absent/null or well-formed labels and cards |
| TrelloInit.ValidateComplete | scripts/trello_init.py:94-128 | every well-formed spec passes |
| TrelloInit.ValidateSpec | scripts/trello_init.py:94-128 | the method raises exactly what `Validate` names |
| TrelloInit.CheckLabelsAndCards | scripts/trello_init.py:112-128 | the label and card loops raise exactly what `ValidateRest` names |
| TrelloInit.CreateBoardKeepsId | scripts/trello_init.py:133-135 | a board with a truthy id is returned with that id, dry run or not |
| TrelloInit.CreateBoardValidated | scripts/trello_init.py:137-152 | a validated board without an id gets DRY_RUN_BOARD in a dry run and a creation request otherwise |
| TrelloInit.BoardRequestFields | scripts/trello_init.py:137-146 | defaultLists is sent as "true" or "false" by truthiness, the permission level defaults to "private", and the spec's organization wins over the environment's |
| TrelloInit.DryRunMapping | scripts/trello_init.py:158-181 | the dry-run loop builds exactly `DryRunIds` |
| TrelloInit.CreateListsDryRun | scripts/trello_init.py:158-168 | the list mapping of a dry run, with the prefix DRY_LIST_ |
| TrelloInit.CreateLabelsDryRun | scripts/trello_init.py:171-181 | the label mapping of a dry run, with the prefix DRY_LABEL_, reading `color` too |
| TrelloInit.DryRunIdsSucceeds | scripts/trello_init.py:160-164 | when every entry has a hashable name (and a color, for labels) the mapping is built |
| TrelloInit.DryRunIdsKeys | scripts/trello_init.py:160-164 | a built mapping holds the name of every entry |
| TrelloInit.DryRunIdsSize | scripts/trello_init.py:173-177 | the mapping has at most as many names as there are entries |
| TrelloInit.DryRunIdsLastWins | scripts/trello_init.py:173-177 | a name maps to DRY_…_{i+1} for the last index i that carries it |
| TrelloInit.DryRunIdsDistinct | scripts/trello_init.py:160-164 | with pairwise different names the mapping has exactly one name per entry |
| TrelloInit.DryRunIdsFrom | scripts/trello_init.py:160-164 | every name in the mapping is the name of some entry |
| TrelloInit.ValidatedLists | scripts/trello_init.py:109-110 | after validation the list mapping is built and has exactly one name per list |
| TrelloInit.ValidatedCardLists | scripts/trello_init.py:127 | after validation every card's list is found in the list mapping |
| TrelloInit.ChecklistCounts | scripts/trello_init.py:184-190 | the count a card adds is `len(items)` of a truthy checklist and 0 for a falsy one, and a checklist id comes back exactly for a truthy one |
| TrelloInit.CardChecks | scripts/trello_init.py:214-241 | a card that passes every check is an object with a name |
| TrelloInit.CardsLoopStep | scripts/trello_init.py:213-241 | one turn of the card loop stops at the card's failure or goes on with its record and count added |
| TrelloInit.CreateCardsDryRun | scripts/trello_init.py:201-243 | the loop returns exactly `CardsDryRun`: the first failure, or the records and the checklist total |
| TrelloInit.CardDryRunRecord | scripts/trello_init.py:221-223 | an accepted card is recorded as DRY_CARD_{n+1} with its own name, n being the number of cards before it |
| TrelloInit.CardsDryRunCards | scripts/trello_init.py:213-223 | a dry run records one card per spec card, the k-th as DRY_CARD_{k+1} with the k-th card's name |
| TrelloInit.CardsDryRunTotal | scripts/trello_init.py:237-241 | checklist_items_total is the sum of the counts over cards with a truthy checklist |
| TrelloInit.CardIdsDistinct | scripts/trello_init.py:222 | the card ids of a dry run are pairwise different |
| TrelloInit.CardWithoutListFails | scripts/trello_init.py:216-218 | a card with a falsy `list` raises the missing-list error, even in a dry run |
| TrelloInit.UnknownLabelFails | scripts/trello_init.py:229-231 | a card whose labels are all hashable and include, at any position, one missing from the label map raises the unknown-label error, even in a dry run |

## Left out

- Word characters and case folding are ASCII only. Python's `\b` and `re.IGNORECASE` also treat non-ASCII letters as word characters and fold their case.
- File reading and decoding are left out. That covers the UTF-8 then Latin-1 fallback in `scan_file`, the `sys.exit` on a read error, `rglob`'s walk over the file system, and all printing. A file is given as its path and its lines, and the directory as the list of its files (or none when it does not exist).
- `file_path.is_file()` is left out: the model's files are files.
- `str(file_path)` is left out: a path is its text.
- `saltlint.main`'s printing and `sys.exit` are left out. `ExitCode` states the status it exits with.
- `format_report`'s sum over `violations.values()` is modelled by `Total`, whose order of summation is irrelevant (`TotalRemove`). The dictionary's iteration order is not modelled.
- `trello_request`, the HTTP calls and every non-dry-run branch are left out. `create_board` stops at the request it would send (`PostBoard`).
- `_env` is not modelled: `TRELLO_ORG_ID` is the parameter `orgEnv`.
- `load_spec`, argparse, `main` and `_safe`'s printing are left out.
- The spec's top level is taken to be a JSON object. A top-level array or scalar, which makes `"board" not in spec` behave differently, is not modelled.
- `KeyError`, `TypeError` and `AttributeError` are one failure, `PythonError`. Only `TrelloError`'s cases are told apart.
- A JSON float literal is an exact real. Python rounds every float literal to the nearest double, and the model does not. So 0.1 and 0.10000000000000001 become one key in Python, 1e-400 becomes a falsy 0.0, and 1e400 becomes inf. NaN and Infinity are not modelled either.
- The label loop of `create_cards` (scripts/trello_init.py:230-235) is modelled by the function `LabelsIssue`, not by a method with a loop. It changes no state and only decides which exception is raised first.
- Iterating a JSON object in `create_cards`'s label loop checks every key; the order of the keys, which decides which unknown label is named first, is not modelled.
- TrelloInit.DryRunIdsSucceeds: states only that good entries give a mapping. The converse direction is `DryRunIdsKeys`.
- Salinity.FormatSodiumLoss: at the ties mg ≡ 50 (mod 100) the contract claims only that the grams text is within 50 mg of the loss. `toFixed(1)` on a double decides those ties by the binary representation (1450 shows as "1.4g"). The model rounds those ties up.
- Salinity.RoundHalfUp: computes on exact reals. `Math.round` on the double product could differ from the exact result at a .5 tie.
- Salinity.GetRecommendation: the table lookup ignores keys inherited from `Object.prototype` (such as "constructor"). Lower-casing is ASCII only.
- `Math.random` is the parameter `r` in [0, 1), and `parseInt` is the `Option<int>` reading (None for NaN).
- `debounce` and the input/change listeners are left out: each recompute is one call of `UpdateCalculation`.
- `buildWidgetDOM`, the element lookups and the error card of `initWidget` are left out. Only the placeholder texts are kept, as `InitialTexts`.
- `src/nav.js` is not part of this model.
