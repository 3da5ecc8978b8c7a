# Journey map configuration and Plutchik emotion registry

A Dafny model of the shared configuration behind the journey map and the
Plutchik emotion wheel:

- **Geometry** (`Geometry.dfy`): the chart layout constants, the affine maps
  from a rating to a row offset (`valueToY`), from a step index to a column
  centre (`stepToX`) and from a step count to the chart width
  (`totalWidth`), and the seven-band rating label cascade (`ratingToLabel`).
- **StageColors** (`StageColors.dfy`): `buildStageColorMap`, a one-pass loop
  that gives each distinct stage id the next palette colour in first-seen
  order, the palette index wrapping modulo its seven entries. The loop is a
  `method` proved equal to a pure function (`StageColorMapOf`, built on
  `FirstSeen`), and the promised properties are lemmas about that function.
- **JsString** (`JsString.dfy`): the two string built-ins the score
  resolution uses, `toLowerCase` and `trim`.
- **Registry** (`Registry.dfy`): the tables of the eight primary emotions and
  twenty-four dyads, the id maps built from them (`Object.fromEntries` as
  `FromEntries`, a later entry winning), the exact lookups, the total colour
  lookups with their fixed fallbacks, and the invariants of the static data.
- **Scores** (`Scores.dfy`): `plutchikScoreToColor`, which lower-cases and
  trims a free-text score, follows `SCORE_ALIASES`, and looks the id up.
- **Hover** (`Hover.dfy`): the hover-highlight cell, a class whose `hovered`
  set the three helpers overwrite, with a value model (`Hovered`, `Step`,
  `Replay`) for reasoning about sequences of helper calls.

Ratings are modelled as already-numeric `real`s. A missing score (`null` or
`undefined`) is `None`. The code lower-cases a score before it trims it;
the model keeps that order, and `JsString.TrimLowerCommute` shows that the
order makes no difference.

## Model

| member | source | states |
|---|---|---|
| Geometry.ValueToY | src/lib/journeymapper2/journeyConfig.js:10-13 | for ratings in [-5, 5] the offset lies between the top padding and the bottom of the grid; a rating above 5 is drawn above the grid and one below -5 below it, since nothing is clamped |
| Geometry.ValueToYEndpoints | src/lib/journeymapper2/journeyConfig.js:10-13 | rating 5 sits at 16, rating -5 at 356, and rating 0 at their midpoint 186 |
| Geometry.ValueToYStrictlyDecreasing | src/lib/journeymapper2/journeyConfig.js:10-13 | a higher rating is drawn strictly higher up |
| Geometry.RowValuesInsideGrid | src/lib/journeymapper2/journeyConfig.js:3-13 | the eleven grid rows are 5 down to -5, each lands in [16, 356], and neighbouring rows are one tenth of the grid height apart |
| Geometry.SvgHeightIs360 | src/lib/journeymapper2/journeyConfig.js:4-8 | the SVG height is 360 |
| Geometry.StepToX | src/lib/journeymapper2/journeyConfig.js:15-17 | the point for step `index` lies strictly inside that step's column, between its left edge (the axis width plus `index` step widths) and the next column's |
| Geometry.StepToXSpacing | src/lib/journeymapper2/journeyConfig.js:15-17 | neighbouring columns are one step width apart and the first centre is at 148.5 |
| Geometry.TotalWidth | src/lib/journeymapper2/journeyConfig.js:19-21 | the chart is never narrower than the axis and, with any step, reaches past the first column centre |
| Geometry.TotalWidthFormula | src/lib/journeymapper2/journeyConfig.js:19-21 | the width is the axis plus n step widths, ends exactly at the right edge of the last column, and is 711 for three steps |
| Geometry.StepInsideChart | src/lib/journeymapper2/journeyConfig.js:15-21 | every column centre of an n-step chart lies strictly between the axis and the right edge |
| Geometry.RatingToLabel | src/lib/journeymapper2/journeyConfig.js:23-32 | the label is one of the seven, and each label holds exactly on its rating interval (both directions), "Leans Negative" covering [-1, 1) without 0 |
| Geometry.RatingToLabelExamples | src/lib/journeymapper2/journeyConfig.js:23-32 | 4, 0, -2 and -5 get Very Positive, Neutral / Mixed, Negative and Very Negative |
| Geometry.FractionBelowOneLeansNegative | src/lib/journeymapper2/journeyConfig.js:27-29 | any rating strictly between 0 and 1 is labelled Leans Negative, a lower band than rating 0 gets |
| Geometry.LabelMonotoneOnIntegers | src/lib/journeymapper2/journeyConfig.js:23-32 | over integer ratings the band never goes down as the rating goes up |
| Geometry.LabelNotMonotoneOnReals | src/lib/journeymapper2/journeyConfig.js:23-32 | over real ratings it does: some higher rating gets a lower band |
| StageColors.BuildStageColorMap | src/lib/journeymapper2/journeyConfig.js:49-59 | the loop returns exactly the map `StageColorMapOf` defines, whose keys are the stage ids of the data |
| StageColors.FirstSeenSpec | src/lib/journeymapper2/journeyConfig.js:50-57 | the first-seen order holds every stage id of the input exactly once and is no longer than the input |
| StageColors.FirstSeenSnoc | src/lib/journeymapper2/journeyConfig.js:52-56 | one more record adds its id at the end if it is new and changes nothing if it was seen |
| StageColors.OrderedColorsAreTheMap | src/lib/journeymapper2/journeyConfig.js:49-58 | a map holding exactly the first-seen ids, each with the palette colour of its rank, is the stage colour map |
| StageColors.StageColorMapKeys | src/lib/journeymapper2/journeyConfig.js:52-58 | an id is a key of the map if and only if some record carries it |
| StageColors.StageColorMapRank | src/lib/journeymapper2/journeyConfig.js:53-55 | the k-th distinct id in first-seen order gets palette colour k modulo 7 |
| StageColors.StageColorMapSize | src/lib/journeymapper2/journeyConfig.js:50-58 | the map has one entry per distinct id, never more than there are records |
| StageColors.StageColorMapValuesInPalette | src/lib/journeymapper2/journeyConfig.js:54 | every colour handed out is a palette entry |
| StageColors.EmptyDataEmptyMap | src/lib/journeymapper2/journeyConfig.js:49-58 | no records give the empty map |
| StageColors.FirstSeenOrder | src/lib/journeymapper2/journeyConfig.js:52-56 | wherever a later-ranked id occurs in the data, every earlier-ranked id has already occurred |
| StageColors.FirstSeenPrefix | src/lib/journeymapper2/journeyConfig.js:52-56 | appending records only extends the first-seen order at its end |
| StageColors.AppendKeepsColors | src/lib/journeymapper2/journeyConfig.js:52-56 | appending records never changes a colour already assigned |
| StageColors.RepeatChangesNothing | src/lib/journeymapper2/journeyConfig.js:53 | a record whose id was already seen leaves the whole map unchanged, so the counter does not advance |
| StageColors.FirstSeenOfABAC | src/lib/journeymapper2/journeyConfig.js:52-56 | ids a, b, a, c are first seen in the order a, b, c |
| StageColors.FirstSeenExample | src/lib/journeymapper2/journeyConfig.js:49-58 | records a, b, a, c give a, b and c the first three palette colours and nothing else |
| StageColors.EighthStageWraps | src/lib/journeymapper2/journeyConfig.js:54 | the eighth distinct stage gets the first palette colour again, the same as the first stage |
| StageColors.FirstSevenDistinct | src/lib/journeymapper2/journeyConfig.js:35-43 | the first seven distinct stages get pairwise different colours |
| StageColors.PaletteDistinct | src/lib/journeymapper2/journeyConfig.js:35-43 | the seven palette colours are pairwise different |
| JsString.LowerChar | src/lib/journeymapper2/journeyConfig.js:225 | a lowered character is never an upper-case letter and is white space exactly when the original is |
| JsString.Lower | src/lib/journeymapper2/journeyConfig.js:225 | lower-casing keeps the length and maps each character on its own |
| JsString.TrimStart | src/lib/journeymapper2/journeyConfig.js:225 | the result is the suffix after a run of white space and starts with a non-space |
| JsString.TrimEnd | src/lib/journeymapper2/journeyConfig.js:225 | the result is the prefix before a run of white space and ends with a non-space |
| JsString.Trim | src/lib/journeymapper2/journeyConfig.js:225 | the input is the result with a run of white space before and after it, and the result neither starts nor ends with white space |
| JsString.TrimCut | src/lib/journeymapper2/journeyConfig.js:225 | trimming the front and then the back cuts only white space, on both sides |
| JsString.TrimLowerHasNoUpper | src/lib/journeymapper2/journeyConfig.js:225 | trimming a lower-cased string leaves no capital letter |
| JsString.TrimPadded | src/lib/journeymapper2/journeyConfig.js:225 | a word with any white space around it trims back to the word |
| JsString.TrimLowerCommute | src/lib/journeymapper2/journeyConfig.js:225 | lower-casing then trimming equals trimming then lower-casing |
| JsString.LowerIdempotent | src/lib/journeymapper2/journeyConfig.js:225 | lower-casing twice is lower-casing once |
| JsString.TrimIdempotent | src/lib/journeymapper2/journeyConfig.js:225 | trimming twice is trimming once |
| Registry.FromEntriesLastWins | src/lib/journeymapper2/journeyConfig.js:184-191 | whatever the keys, every entry's key is in the map and each key holds the last entry with that key |
| Registry.FromEntriesLookup | src/lib/journeymapper2/journeyConfig.js:184-191 | with unique keys every entry is found under its own key and the map holds no other key |
| Registry.EmotionIdsUnique | src/lib/journeymapper2/journeyConfig.js:77-142 | the eight emotion ids are pairwise different |
| Registry.DyadIdsUnique | src/lib/journeymapper2/journeyConfig.js:148-178 | the twenty-four dyad ids are pairwise different |
| Registry.WheelPositionSpec | src/lib/journeymapper2/journeyConfig.js:77-142 | a non-negative wheel position holds the emotion with that id, and -1 means no emotion has it |
| Registry.EmotionById | src/lib/journeymapper2/journeyConfig.js:184-186 | every emotion is found under its id, and an id that is not an emotion's finds nothing |
| Registry.DyadById | src/lib/journeymapper2/journeyConfig.js:189-191 | every dyad is found under its id, and an id that no dyad has finds nothing |
| Registry.EmotionColor | src/lib/journeymapper2/journeyConfig.js:200-202 | an emotion id gets its table colour, every other string the fallback #BFA080 |
| Registry.EmotionTextColor | src/lib/journeymapper2/journeyConfig.js:210-212 | an emotion id gets its table text colour, every other string the fallback #5A3E28 |
| Registry.EmotionColorsAreNotFallback | src/lib/journeymapper2/journeyConfig.js:200-202 | no emotion's colour equals the fallback, so the fallback always means a miss |
| Registry.DocumentedColors | src/lib/journeymapper2/journeyConfig.js:73-74 | anger is #D50000, joy's text colour is #5A3E28, and unknown or empty ids fall back |
| Registry.WheelAnglesEvenlySpaced | src/lib/journeymapper2/journeyConfig.js:77-142 | there are eight emotions and the i-th sits at 45 times i degrees |
| Registry.DyadIdsDisjointFromEmotionIds | src/lib/journeymapper2/journeyConfig.js:148-178 | no dyad id is an emotion id |
| Registry.DyadPairsAreEmotions | src/lib/journeymapper2/journeyConfig.js:145-178 | every dyad blends two different emotions of the table |
| Registry.EightOfEachKind | src/lib/journeymapper2/journeyConfig.js:149-177 | a table laid out as three blocks of eight kinds counts eight of each kind |
| Registry.EightDyadsOfEachKind | src/lib/journeymapper2/journeyConfig.js:148-178 | there are twenty-four dyads, eight of each kind |
| Registry.WheelDistance | src/lib/journeymapper2/journeyConfig.js:146 | the shorter way round between two wheel positions is 0 to 4 steps, and 0 only for the same position |
| Registry.DyadSpansMatchKindExceptHope | src/lib/journeymapper2/journeyConfig.js:146-178 | every dyad other than hope blends emotions 1, 2 or 3 apart as its kind says |
| Registry.HopeIsMistyped | src/lib/journeymapper2/journeyConfig.js:157-160 | hope is found as written, typed secondary, yet blends wheel neighbours: optimism's pair reversed |
| Registry.CorrectedDyadsSpanTheirKinds | src/lib/journeymapper2/journeyConfig.js:146-178 | with hope blending anticipation and trust every dyad spans the distance of its kind |
| Registry.CorrectedDyadsKeepShape | src/lib/journeymapper2/journeyConfig.js:148-178 | the corrected table keeps unique ids and eight dyads of each kind |
| Scores.PlutchikScoreToColor | src/lib/journeymapper2/journeyConfig.js:224-229 | a missing score gets the fallback, and every result is the fallback or an emotion's colour |
| Scores.AliasTargetsAreEmotions | src/lib/journeymapper2/journeyConfig.js:235-246 | every alias names an emotion of the table |
| Scores.EmotionIdsAreNotAliases | src/lib/journeymapper2/journeyConfig.js:235-246 | no emotion id is itself an alias key |
| Scores.AliasHitNeverFallsBack | src/lib/journeymapper2/journeyConfig.js:224-229 | a score that normalises to an alias gets its target emotion's colour, never the fallback |
| Scores.AliasResolves | src/lib/journeymapper2/journeyConfig.js:226-228 | a score that normalises to an alias is coloured as the alias target |
| Scores.CanonicalScoreResolves | src/lib/journeymapper2/journeyConfig.js:224-229 | a score that normalises to an emotion id gets that emotion's colour |
| Scores.UnknownScoreFallsBack | src/lib/journeymapper2/journeyConfig.js:224-229 | a score that normalises to neither an alias nor an emotion id gets the fallback |
| Scores.Normalize | src/lib/journeymapper2/journeyConfig.js:225 | a normalised score has no capital letter and no white space at either end |
| Scores.ScoreToId | src/lib/journeymapper2/journeyConfig.js:225-227 | a score that normalises to an alias leads to an emotion of the table; any other score is looked up exactly as it normalises |
| Scores.NormalizeIdempotent | src/lib/journeymapper2/journeyConfig.js:225 | normalising twice is normalising once |
| Scores.NormalizedScoreSameColor | src/lib/journeymapper2/journeyConfig.js:224-229 | resolving an already normalised score gives the same colour as the raw score |
| Scores.NormalizePadded | src/lib/journeymapper2/journeyConfig.js:225 | a word with white space around it normalises to the word in lower case |
| Scores.PaddedGriefIsSadness | src/lib/journeymapper2/journeyConfig.js:224-229 | Grief with any white space around it gets the colour of sadness |
| Scores.PaddedRageIsAnger | src/lib/journeymapper2/journeyConfig.js:224-229 | RAGE with any white space around it gets the colour of anger |
| Scores.MissingScoreFallsBack | src/lib/journeymapper2/journeyConfig.js:225 | a missing or empty score gets the fallback |
| Hover.Hovered | src/lib/journeymapper2/Plutchikstore.js:12-24 | whatever a helper sets holds at most two ids (`AtMostPair`, the cell's invariant) |
| Hover.HoveredSizes | src/lib/journeymapper2/Plutchikstore.js:3-8 | the set is empty exactly after a clear, holds two ids exactly after a pair of different ids, and one otherwise |
| Hover.LastCallWins | src/lib/journeymapper2/Plutchikstore.js:12-24 | after any history of calls the cell holds what the last call set, independent of everything before |
| Hover.ReplayStaysSmall | src/lib/journeymapper2/Plutchikstore.js:3-9 | if only the helpers write a valid cell, it never holds more than two ids |
| Hover.HoverState.constructor | src/lib/journeymapper2/Plutchikstore.js:9 | the cell starts empty |
| Hover.HoverState.HoverOne | src/lib/journeymapper2/Plutchikstore.js:12-14 | the set becomes exactly {id}, of size one, whatever it held before |
| Hover.HoverState.HoverPair | src/lib/journeymapper2/Plutchikstore.js:17-19 | the set becomes exactly {a, b}, of size two when a and b differ and one otherwise |
| Hover.HoverState.HoverClear | src/lib/journeymapper2/Plutchikstore.js:22-24 | the set becomes empty |

## Left out

- `src/lib/journeymapper2/journeyStore.js` holds two cells with no logic beyond their initial value; it is not part of this model.
- The `svelte/store` subscribe and notify mechanism behind `writable`: the model keeps only the value a cell holds.
- `parseFloat`, NaN and IEEE-754 rounding in `valueToY` and `ratingToLabel`: ratings are already-numeric reals, so a NaN rating (which fails every comparison and is labelled Very Negative) is not modelled.
- Object key coercion and key order in `Object.fromEntries`: stage ids are strings and the result is an unordered Dafny map, so ids that stringify alike are not merged and the insertion order of the returned object is not captured (the first-seen order is, as `FirstSeen`).
- JsString.Lower: lower-cases ASCII letters only, not JavaScript's full Unicode case mapping. This does not change any colour: the only non-ASCII characters whose lower case holds an ASCII letter are the Kelvin sign (to k) and the dotted capital I (to i and a combining dot), no alias key or emotion id contains a k, and the combining dot stays in the result, so a score with any other non-ASCII character misses both ways.
- A non-string score, for which the source throws a TypeError: the model's score is a string or missing.
- Prototype-chain keys such as `constructor` or `__proto__` in the alias and id objects: the finite maps of the model treat them as absent, which gives the same fallback colour the source ends with.
- Display-only fields (the emotion and dyad labels, valence) are carried as data; rendering is not modelled.
- The exact-lookup functions `EmotionById` and `DyadById` return an `Option`; the source's `undefined` for a miss is `None`.

## Findings

| source | as written | input that shows it | evidently intended | confidence | as-written member | corrected member |
|---|---|---|---|---|---|---|
| src/lib/journeymapper2/journeyConfig.js:160 | the dyad hope is typed secondary but blends joy and anticipation, which are wheel neighbours, the pair of the primary dyad optimism in reverse order | `DYAD_BY_ID['hope']` | hope blends anticipation and trust, one apart on the wheel, as the secondary dyad of that name does and as the comment at line 146 requires of secondary dyads | not executed | Registry.HopeIsMistyped | Registry.CorrectedDyadsSpanTheirKinds |

The lookups of the model (`Registry.DyadById`) keep the table as written, so
that they agree with the source; the corrected table `CORRECTED_DYADS`
carries the distance rule and keeps the table's shape
(`Registry.CorrectedDyadsKeepShape`).

The rating cascade labels any rating strictly between 0 and 1 as Leans
Negative, below the Neutral / Mixed of rating 0
(`Geometry.FractionBelowOneLeansNegative`). The grid rows are whole numbers,
and on whole-number ratings the cascade is monotone
(`Geometry.LabelMonotoneOnIntegers`); which band a fraction was meant to get
is not evident, so this is stated as a property rather than listed as a
finding.
