# grocerySigns layout engine in Dafny

grocerySigns turns product text into supermarket-style posters. A template puts
fields on a page. Each field's box is given by absolute numbers or by names of
edges of other fields ("FIELD03.separator"). Every field's text is normalised:
trimmed, whitespace runs collapsed, upper-cased. Then it is drawn in one of two
ways:
- Text fields use "harmonious" word wrapping: the fewest lines whose best split
  keeps the vertical stretch within `maxRatio` times the horizontal one.
- Price fields are split into currency sign, main part and decimal part, and
  publish the x positions `.currency` and `.separator` for other fields to use.

This project models three generations of that engine:
- the current server-side one (`src/templates/generate.js`);
- the browser one (`src/grocery-signs.js`);
- the original one (`grocery-signs.js`).

It also models:
- the client helpers `randomStr`, `splitSentences`, `processSentences` and
  `processImages` (`src/client/js/grocery-signs.js`);
- the shipped templates and their text filters (`src/templates/templates.js`);
- the loop that merges the field names of every template
  (`src/server/templates.js`).

How the model is built:
- **The PDF document** is the class `Surface.Doc`:
  - The font metrics are a function parameter `(font, string) -> width`, and the
    line heights are a positive function of the font.
  - The drawing calls (`save`, `translate`, `scale`, `text`, `image`,
    `restore`, ...) go into an append-only log of commands, so every drawing
    method states exactly which commands it emits.
  - The memo that `wrapText` installs on `widthOfString` is an optional cache
    field.
- **The seeded generator** `srandom` is the class `Random.Rng`.
  `shuffleArray` works in place on an `array` of optional values, where `None`
  is `undefined`. The properties that a negative index writes (`array[-1]`)
  come back as a map beside it.
- **`generatePDF`** has two layers:
  - A pure specification `Resolver.Run` built from `Visit` and `Pass`.
  - Methods (`VisitField`, `PassFields`, `GeneratePdf`) proved equal to it.
  - The drawing of one field is a `Drawer`, a function from field, box and
    image cursor to commands, published coordinates, image advance and "threw".
    `Resolver.Drawing` builds it from `Render.FieldEffect`.
- **JavaScript values** of the option objects are `JsValues.Val`: undefined,
  number, string, regular expression, interval `[min, max]`, font, font list,
  image, filter function. `Get` on a missing key gives `Undefined`.

Modules:

| module | content |
|---|---|
| Wrappers | `Option` |
| JsValues | JS values and option maps |
| Strings | JS whitespace, `trim`, `split`, `join`, `toUpperCase` |
| Text | `normalizeString`, `splitWords`, `splitSentences` |
| Random | `srandom`, shuffles, `populateFields` |
| Fit | the specification of `fitWords` and its optimality |
| Surface | the document |
| Wrap | `fitWords`, `wrapText` |
| Fonts | `bestMatchingFont` and font choice |
| Options | `mergeObjects`, `$.extend`, `||`, `computeActualMaxFieldLengths` |
| Layout | text field layout |
| Price | price field parse and layout |
| Render | option merge, frame and body of one field |
| Resolver | the multi-pass `generatePDF` |
| Scrape | client-side scrape processing |
| Templates | the shipped templates |
| FieldNames | the field-name merge |

## Model

| member | source | states |
|---|---|---|
| JsValues.Get | src/templates/generate.js:336-339 | reading a key an object lacks gives `undefined` |
| Strings.SpaceRun | src/templates/generate.js:211 | the length of the leading whitespace run: all of it is whitespace and the next character is not |
| Strings.TrimStart | src/templates/generate.js:210 | the result is a suffix of the input, drops only whitespace, and does not start with whitespace |
| Strings.TrimEnd | src/templates/generate.js:210 | the result is a prefix of the input, drops only whitespace, and does not end with whitespace |
| Strings.Trim | src/templates/generate.js:210 | `trim()` leaves no whitespace at either end |
| Strings.UpperChar | src/templates/generate.js:212 | upper-casing a character keeps it whitespace exactly when it was |
| Strings.Upper | src/templates/generate.js:212 | `toUpperCase()` keeps the length and maps every character |
| Strings.FirstMatch | src/templates/generate.js:477-478 | the first position at or after `from` where the separator matches; no match before it |
| Strings.SplitOnJoin | src/templates/generate.js:477-478 | joining the pieces of `split(sep)` with `sep` gives the text back |
| Strings.SplitSpacesSpaceless | src/templates/generate.js:92-94 | no piece of `split(/\s+/)` contains whitespace |
| Strings.SplitSpacesWord | src/templates/generate.js:92-94 | splitting a word without whitespace gives that word alone |
| Strings.SplitSpacesJoin | src/templates/generate.js:92-94 | splitting a space-joined list of words gives the words back |
| Strings.SplitOnSpaceJoin | grocery-signs.js:230 | `split(" ")` of a space-joined list of words gives the words back |
| Strings.SplitSpacesTrimmed | src/templates/generate.js:92-94 | splitting trimmed, non-empty text gives non-empty, whitespace-free words |
| Strings.UpperAppend | src/templates/generate.js:212 | upper-casing distributes over concatenation |
| Strings.UpperJoin | src/templates/generate.js:211-212 | upper-casing a space-joined list is joining the upper-cased words |
| Text.UpperTwice | src/templates/generate.js:212 | upper-casing is idempotent |
| Text.NormalizeWords | src/templates/generate.js:207-214 | the result is normal (trimmed, single spaces, upper case); it is empty exactly when the trimmed input is; its words are the input's words upper-cased |
| Text.NormalizeIdempotent | src/templates/generate.js:207-214 | normalising twice is normalising once |
| Text.NormalizeFixesNormal | src/templates/generate.js:207-214 | normal text is its own normal form |
| Text.NormalWords | src/templates/generate.js:92-94 | on normal text, `split(/\s+/)` and `split(" ")` agree, give words, and join back to the text |
| Text.SplitSentences | src/client/js/grocery-signs.js:46-48 | `splitSentences` always gives at least one piece |
| Text.SentencesHaveNoBreak | src/client/js/grocery-signs.js:46-48 | no sentence contains a break (`.` or `;` followed by whitespace) |
| Text.BreakEndsSentence | src/client/js/grocery-signs.js:46-48 | text without breaks or enders, then `.` or `;` and whitespace, ends the first sentence there |
| Text.EnderEndsSentence | src/client/js/grocery-signs.js:46-48 | a `!` or `?` followed by whitespace ends a sentence that keeps the mark |
| Text.EllipsisEndsSentence | src/client/js/grocery-signs.js:46-48 | an ellipsis followed by whitespace ends a sentence that keeps the ellipsis |
| Text.MarkEndersPlain | src/client/js/grocery-signs.js:47 | the `replace` leaves text without enders unchanged |
| Text.SplitBreakPlain | src/client/js/grocery-signs.js:47 | the `split(/[.;]\s/)` cuts at the first break |
| Random.JsRem | src/templates/generate.js:27 | JavaScript `%` truncates: the remainder has the sign of the dividend |
| Random.SrandomRange | src/templates/generate.js:26-29 | from a non-negative seed the next state is in [0, 233280) and the value in [0, 1) |
| Random.AdvanceNonNegative | src/templates/generate.js:26-29 | a non-negative seed stays non-negative |
| Random.Rng.Srandom | src/templates/generate.js:26-29 | one linear congruential step; the result is the new state over the modulus |
| Random.SwapIndexRange | src/templates/generate.js:43 | for any state `srandom` can store, `Math.floor(srandom() * (i + 1))` is at most `i` and at least `-(i + 1)`; for a non-negative state it is in [0, i] |
| Random.SwapPermutes | src/templates/generate.js:44-46 | swapping two entries permutes the array |
| Random.ShuffledPermutes | src/templates/generate.js:41-49 | from a non-negative state the shuffle is a permutation of the slots and writes no negative-key property |
| Random.ShuffledKeepsTop | src/templates/generate.js:41-49 | from any state, slots above the loop's start are not touched |
| Random.ShuffleStep | src/templates/generate.js:42-47 | one loop step: draw, run the three assignments, continue with one fewer entry |
| Random.NegativeSeedLoses | src/templates/generate.js:26-49 | from seed -10, shuffling ["a", "b"] draws index -1, leaves `["a", undefined]` and moves "b" to the property "-1": not a permutation |
| Random.ShuffleArray | src/templates/generate.js:41-49 | the array becomes the specified shuffle, one draw per index from the top down to 1, for any seed; a negative partner index reads `undefined` (or the property an earlier step stored) and writes a negative-key property |
| Random.NonEmpty | src/templates/generate.js:61 | the filter keeps no empty string |
| Random.NonEmptyCounts | src/templates/generate.js:61 | the filter keeps every non-empty string as often as it occurs |
| Random.DefinedCounts | src/templates/generate.js:61 | the slots of an array of defined entries hold each value as often as the entries do, and no `undefined` |
| Random.ShuffleSentences | src/templates/generate.js:59-67 | for any seed, a fresh array holding the non-empty sentences shuffled from that seed; the input is not modified |
| Random.ShuffleImages | src/templates/generate.js:77-85 | for any seed, a fresh copy of the images shuffled from that seed; the input is not modified |
| Random.ShuffleSentencesPermutes | src/templates/generate.js:59-67 | from a non-negative seed, the shuffled sentences are exactly the non-empty inputs, with their multiplicities, and none is `undefined` |
| Random.Reduce | src/templates/generate.js:26-29 | the seed brought into [0, 233280); on a non-negative seed the first draw is unchanged |
| Random.ReduceKeepsShuffle | src/templates/generate.js:41-49 | on a non-negative seed, reducing it first leaves the shuffle unchanged |
| Random.ShuffleSentencesReduced | src/templates/generate.js:59-67 | `shuffleSentences` with the seed reduced first: the same result on non-negative seeds, and a permutation of the non-empty sentences without `undefined` on every seed |
| Random.PopulateFields | src/grocery-signs.js:802-820 | for any seed, with randomisation input `i` gets the `i`-th shuffled non-empty sentence from the last seed, `""` for an `undefined` slot; without it, the `i`-th scraped sentence and the generator is untouched; `""` past the end |
| Fit.Lines | src/templates/generate.js:133 | one line per group of words |
| Fit.ExaminedShape | src/templates/generate.js:131-145 | an examined split has `n` groups, concatenates to the words, and only its last group may be empty |
| Fit.SplitIsExamined | src/templates/generate.js:131-145 | every split into `n` non-empty groups is among those `fitWords` examines |
| Fit.ScanExamined | src/templates/generate.js:131-145 | the loop only ever keeps an examined split, and never loses one it has |
| Fit.BestShape | src/templates/generate.js:108-147 | one line is the whole text; no fit exactly when there are fewer words than lines; otherwise an examined split into `n` lines |
| Fit.LinesJoin | src/templates/generate.js:112 | the lines of a split, joined by spaces, are the words joined by spaces |
| Fit.ScanBelowAll | src/templates/generate.js:131-145 | the widest line of the kept split is at most that of every split the loop examined |
| Fit.ScanStrict | src/templates/generate.js:135-139 | a split replaces the kept one only when it is strictly narrower (`>=` prunes ties) |
| Fit.BestOptimal | src/templates/generate.js:108-147 | `fitWords` minimises the widest line over every examined split into `n` lines |
| Fit.BestBeatsEverySplit | src/templates/generate.js:108-147 | the widest line of the fit is at most that of any split into `n` non-empty lines |
| Fit.ScanEarliest | src/templates/generate.js:131-145 | among equally narrow splits, the kept one has the shortest first line |
| Fit.BestEarliest | src/templates/generate.js:108-147 | ties are broken towards the shorter first line |
| Fit.Refine | src/templates/generate.js:108-147 | under a monotone measure, cutting one line of an examined split in two gives an examined split with one more line that is no wider |
| Fit.BestMonotone | src/templates/generate.js:108-147 | under a monotone measure, `fitWords(words, n + 1)` is no wider than `fitWords(words, n)` |
| Fit.BestAntitone | src/templates/generate.js:108-147 | under a monotone measure, the width of `fitWords(words, n)` does not grow with `n` up to one line per word |
| Wrap.ScaleY | src/templates/generate.js:177-178 | the vertical scale of a positive box is positive |
| Wrap.LineMaxBounds | src/templates/generate.js:143 | every line is at most the fit's width, which is not negative under a non-negative measure |
| Wrap.FitShape | src/templates/generate.js:108-147 | a fit for `k` lines has `k` lines and a finite, non-negative width |
| Wrap.ScanStep | src/templates/generate.js:131-145 | one iteration of the `fitWords` loop, with both pruning tests |
| Wrap.FitCons | src/templates/generate.js:141-143 | a kept split's lines are the first line then the remainder's; its width is the larger of the two |
| Wrap.FitWords | src/templates/generate.js:108-147 | the fit the method computes is the specified optimal split; the memo stays sound |
| Wrap.WrapRec | src/grocery-signs.js:183-195 | the fewest lines, from `k` on, whose fit has an acceptable stretch, or one line per word; no count in between is acceptable |
| Wrap.WrapRecLeast | src/grocery-signs.js:183-195 | the recursive wrap uses no more lines than any acceptable count |
| Wrap.FloorSqrt | src/templates/generate.js:188 | `Math.floor(Math.sqrt(q))` |
| Wrap.Increment | src/templates/generate.js:188 | the increment is at least one line |
| Wrap.Jump | src/templates/generate.js:176-190 | the line count the loop settles on is acceptable or one line per word, and is the start when the start is acceptable |
| Wrap.Next | src/templates/generate.js:188-189 | an unacceptable count always moves on, within the number of words |
| Wrap.JumpNoFewer | src/templates/generate.js:176-190 | the jumping loop never uses fewer lines than the one-at-a-time recursion |
| Wrap.StartAcceptable | src/templates/generate.js:176-190 | an acceptable starting count is kept, and both wraps then agree |
| Wrap.WrapText | src/templates/generate.js:164-196 | the returned fit is the optimal split for the line count the loop reaches; the memo is installed and then removed |
| Surface.Doc.Measure | src/templates/generate.js:437 | the measure is the current font's metrics |
| Surface.Doc.LineHeight | src/templates/generate.js:433 | `currentLineHeight()` is the current font's positive line height |
| Surface.Doc.constructor | src/templates/generate.js:291 | a new document uses Helvetica, has no memo and has drawn nothing |
| Surface.Doc.WidthOfString | src/templates/generate.js:169-174 | the width is the metric's value, memoised when a memo is installed |
| Surface.Doc.SetFont | src/templates/generate.js:418 | `doc.font(...)` switches the font and is logged |
| Surface.Doc.Draw | src/templates/generate.js:363-366 | drawing calls are appended to the log and nothing else changes |
| Fonts.Covered | src/templates/generate.js:579-583 | the glyph count is at most the text's length |
| Fonts.CoveredAll | src/templates/generate.js:579-583 | the count equals the length exactly when every character has a glyph |
| Fonts.BestMatchingFont | src/templates/generate.js:565-592 | a single font is returned as is; from a list, `undefined` exactly when no font is usable, otherwise the first usable font with the highest coverage |
| Fonts.CountGlyphs | src/templates/generate.js:579-583 | the loop counts the characters that have a glyph |
| Fonts.LoadFont | src/grocery-signs.js:348-349 | a name is used as a standard font; any other font used is a loaded font file |
| Fonts.PickedFont | src/templates/generate.js:565-592 | a pick exists exactly when some font is usable, and it is that font |
| Fonts.CurrentFont | src/templates/generate.js:417-418 | a name is used as is; from a list, the choice throws exactly when no font is usable or the pick is not loaded |
| Fonts.PickedUnique | src/templates/generate.js:585-589 | at most one font is the pick |
| Fonts.OriginalFont | grocery-signs.js:220 | `field.font || template.font`: the field's font when truthy, otherwise the template's |
| Options.Extend | src/grocery-signs.js:280-290 | the keys after merging one source are the base's plus the source's defined ones |
| Options.MergeObjects | src/templates/generate.js:220-229 | the target object becomes its old properties overlaid with each source in turn, skipping undefined values; the target is returned |
| Options.ExtendOne | src/templates/generate.js:222-225 | copying keys one at a time builds the same merge |
| Options.GetExtend | src/templates/generate.js:223-224 | after one merge a key reads the source's value when defined, else the base's |
| Options.LastDefinedWins | src/templates/generate.js:220-229 | a key reads from the last source that defines it |
| Options.NoneDefined | src/templates/generate.js:220-229 | a key no source defines keeps its default |
| Options.FieldOverTemplate | src/templates/generate.js:322-333 | field options win over template ones, which win over global ones, which win over the defaults |
| Options.Or | grocery-signs.js:216-217 | `a || b` is `a` when truthy, otherwise `b` |
| Options.ZeroFallsThrough | grocery-signs.js:216-217 | a field value of 0 falls through to the template's value with `||`, but is kept by the merge |
| Options.DrawInInterval | src/templates/generate.js:245-248 | an interval `[min, max]` draws one value in [min, max) and advances the generator once |
| Options.ScalarKept | src/templates/generate.js:243-253 | a non-interval spec draws nothing: a truthy one is kept, a falsy one gives `undefined` |
| Options.FieldsDraws | src/templates/generate.js:261-264 | the fields keep their order and ids, with one draw per interval |
| Options.LimitedAt | src/templates/generate.js:261-264 | field `k` gets the actual value of its own `maxLength`, drawn from the state left by the fields before it |
| Options.OneDrawPerInterval | src/templates/generate.js:255-265 | all templates keep their names and fields, with exactly one draw per interval |
| Options.Registry.ComputeActualMaxFieldLengths | src/grocery-signs.js:203-226 | every template and field gets its actual maximum length, drawn from the generator's current state |
| Options.Registry.ComputeActualMaxFieldLengthsSeeded | src/templates/generate.js:239-266 | the same after reseeding with the given seed |
| Options.LimitFieldsDraw | src/templates/generate.js:261-264 | the field loop computes the specified limits and generator state |
| Options.ActualValueDraw | src/templates/generate.js:242-254 | `actualValue` computes the specified value and generator state |
| Options.Truncate | src/templates/generate.js:409-410 | `substring(0, maxLength)` gives a prefix: the whole text for a falsy limit, at most the limit's characters for a positive one (all of them when the text is short enough), nothing for a negative one |
| Layout.AlignOf | src/templates/generate.js:439-443 | "left" and "right" align left and right; any other value centres |
| Layout.LineX | src/templates/generate.js:439-443 | a line no wider than its block stays inside it: flush left, flush right, or with equal margins |
| Layout.Div | src/templates/generate.js:432 | division where the divisor is not zero |
| Layout.FitLinesWithin | src/templates/generate.js:436-445 | every line of a fit is at most as wide as the fit |
| Layout.MultiLineInsideBox | src/templates/generate.js:430-446 | the scaled block fills the box; lines are one line height apart from the top; each line lies within the block |
| Layout.DrawLines | src/templates/generate.js:435-446 | the loop draws each line at its aligned x and at `y = i * lineHeight` |
| Layout.DrawBlock | src/templates/generate.js:432-446 | the block's scale, then its lines |
| Layout.DrawSingle | src/templates/generate.js:448-463 | a single line: aligned offset, capped stretch, text at the origin |
| Layout.SingleLineInsideBox | src/templates/generate.js:448-463 | the stretch never exceeds `maxHRatio` times the height scale; the scaled line fits the box, exactly when the cap is not reached; the offset keeps it inside |
| Layout.DrawText | src/templates/generate.js:420-465 | a text field of the current generation: the jumping `wrapText` from one line, then the multi-line or the single-line layout |
| Layout.DrawFit | src/templates/generate.js:430-465 | a fit of `k` lines drawn with the multi-line layout, or the single-line layout for one line |
| Layout.DrawBrowserText | src/grocery-signs.js:350-395 | a text field of the browser generation: the recursive `wrapText` from one line, then the same layouts |
| Layout.BrowserNoMoreLines | src/grocery-signs.js:183-195 | the browser lays a text out in the fewest acceptable lines, and the current generation in no fewer |
| Layout.DrawOriginalText | grocery-signs.js:225-243 | the original's text field: words split on " ", always centred multi-line |
| Price.LastPartEndsText | src/templates/generate.js:477-478 | the text after the last currency sign ends the text |
| Price.FirstTwoPieces | src/templates/generate.js:478-480 | the first two pieces of a split, with the separator between them, start the text |
| Price.CurrentPartsSplit | src/templates/generate.js:477-484 | with a decimal part, main + separator + decimal start the text after the currency sign; otherwise a main part longer than four characters gives exactly two characters to the decimal part |
| Price.BrowserPartsSplit | src/grocery-signs.js:407-410 | the browser's decimal part is never empty: two spaces when missing |
| Price.OriginalPartsSplit | grocery-signs.js:253-258 | the original splits the whole text; the main part loses a leading currency sign; the decimal part is never empty |
| Price.CurrentPriceCoords | src/templates/generate.js:486-530 | `.currency` is the left edge plus the scaled currency width; `.separator` is that plus the main part's scaled width, which is `mainWidth` when set |
| Price.CurrentPriceParts | src/templates/generate.js:503-534 | the main part is drawn at `.currency` and the decimal part at `.separator` |
| Price.CurrentPriceFills | src/templates/generate.js:487-494 | the three parts fill `width - padX`, with the main part taking `mainWidth` when set |
| Price.PlainPriceCoords | grocery-signs.js:260-287 | the older layouts share one horizontal scale; the parts start at `.currency` and `.separator` and fill `width - padX`; the original shifts the main part down by `mainShift` |
| Render.NumOr | src/templates/generate.js:413-414 | a number option is used; anything else falls back |
| Render.Defaults | src/templates/generate.js:322-333 | only the current generation has a `color` default |
| Render.KindOf | src/templates/generate.js:389-421 | "price" and "text" fields are price and text fields; only the current generation has image fields |
| Render.SettingsOf | src/grocery-signs.js:280-290 | the older generations have no background, colour, image or static fields |
| Render.OriginalSettings | grocery-signs.js:213-221 | the original reads the input named by the field's id, with no filter and no length limit |
| Render.MergedSettings | src/templates/generate.js:322-333 | the settings of the merged options; the older generations have no background, colour, image or static fields |
| Render.DocumentedDefaults | src/templates/templates.js:16-22 | with nothing set, padding 0, `maxRatio` 2, `maxHRatio` 4, centred, currency "$", separator "." |
| Render.OriginalDefaults | grocery-signs.js:216-228 | the original's `||` fallbacks give the same defaults |
| Render.OverlaidDefaults | src/templates/generate.js:322-333 | the merge's defaults reach the settings when nothing overrides them |
| Render.DefaultValues | src/templates/generate.js:322-333 | the default object holds the documented values |
| Render.MergedDefaults | src/templates/generate.js:413-418 | default option values give the default settings |
| Render.DefaultsKept | src/templates/generate.js:322-333 | sources that set none of the documented keys leave their defaults |
| Render.DefaultKept | src/templates/generate.js:322-333 | a key no source has keeps its default |
| Render.FieldWins | src/templates/generate.js:322-333 | a defined field option is the merged value |
| Render.FrameOf | src/templates/generate.js:363-387 | every field starts with `save` and a translation to its box; only a background can make the frame throw |
| Render.Normalized | src/templates/generate.js:407 | `undefined` becomes ""; a string is normalised; any other value throws |
| Render.FieldTextBounds | src/templates/generate.js:400-410 | without a filter the shown text is a prefix of the normalised input; a positive limit bounds its length |
| Render.ShownWithin | src/templates/generate.js:409-410 | the shown text respects the field's actual limit, and the global 100 when no option sets one |
| Render.OriginalFieldText | grocery-signs.js:213 | the original shows the normalised input named by the field's id |
| Render.Prelude | src/templates/generate.js:413-415 | a drawn text starts by moving to the padded origin |
| Render.PriceBody | src/templates/generate.js:467-535 | a price field publishes `.currency` and `.separator` together and only when it does not throw |
| Render.Body | src/templates/generate.js:419-536 | only price fields publish coordinates; each generation wraps text with its own `wrapText` (src/grocery-signs.js:350-395 for the browser) |
| Render.MeasureNonNeg | src/templates/generate.js:437 | non-negative metrics give a non-negative measure |
| Render.FieldFramed | src/templates/generate.js:363-539 | a field's commands start with `save` and the box translation and, unless it throws, end with `restore` |
| Render.FieldRest | src/templates/generate.js:363-539 | a field's commands are its frame then a rest that ends with `restore` unless it throws |
| Render.FieldCmds | src/templates/generate.js:384-539 | a throwing frame stops the field; an image field draws the next image; other fields draw their content |
| Render.ContentEndsRestore | src/templates/generate.js:400-539 | content that does not throw ends with `restore` |
| Render.MarksOnlyPrices | src/templates/generate.js:509-530 | only a price field with non-empty text publishes coordinates, and then both |
| Render.AdvanceOnlyImages | src/templates/generate.js:389-398 | the image cursor advances exactly for an image field whose next image exists and is loaded |
| Render.ChooseFont | src/templates/generate.js:417-418 | the font choice of the generation |
| Render.DrawBody | src/templates/generate.js:419-536 | the body's commands, published coordinates and exception are those specified, each generation with its own wrap |
| Render.DrawFonted | src/templates/generate.js:413-536 | padding, font, then body, as specified; the font is the one chosen |
| Render.DrawContent | src/templates/generate.js:400-539 | the text, then the fonted body when it is not empty, then `restore`, as specified |
| Render.DrawField | src/templates/generate.js:363-539 | one field's drawing, as specified by its effect |
| Resolver.EdgeValue | src/templates/generate.js:336-339 | a number edge is itself; a string edge is the recorded coordinate of that name, if any; anything else is unresolved |
| Resolver.ResolvedByKeys | src/templates/generate.js:336-339 | whether a field resolves depends only on which names are recorded |
| Resolver.BoxOf | src/templates/generate.js:359-360 | the box's width and height are the differences of its edges |
| Resolver.PublishedDotted | src/templates/generate.js:342-348 | every name a field records contains a dot, so it never shadows "width" or "height" |
| Resolver.Record | src/templates/generate.js:342-348 | every known edge is recorded under the field's id; names of other fields are untouched |
| Resolver.RecordValues | src/templates/generate.js:342-348 | the recorded edges, width and height have the right values |
| Resolver.DrawingLawful | src/templates/generate.js:363-539 | the real field drawing publishes only its own anchors |
| Resolver.DrawingAdvance | src/templates/generate.js:389-398 | the real drawing advances the image cursor exactly for a loaded next image in an image field |
| Resolver.InitialCoords | src/templates/generate.js:306-309 | the table starts with the page's width and height and nothing dotted |
| Resolver.IdsCount | src/templates/generate.js:314 | distinct field ids: as many ids as fields |
| Resolver.VisitGrows | src/templates/generate.js:318-356 | a visit only adds: the field is marked done only when its box resolved and drawing did not throw; a field already done is skipped |
| Resolver.VisitImage | src/templates/generate.js:389-398 | the cursor moves by at most one, and only when the drawing of a resolved field advances it |
| Resolver.VisitRecords | src/templates/generate.js:336-366 | a visit records the field's known edges and, when all four resolve, draws it in its box |
| Resolver.MarkedByDrawing | src/templates/generate.js:509-530 | a new name that is not an edge name comes from drawing the field |
| Resolver.AnchorNotEdge | src/templates/generate.js:509-530 | a `.currency` or `.separator` name is never an edge name |
| Resolver.AnchorOwner | src/templates/generate.js:509-530 | each anchor name belongs to one field |
| Resolver.AnchorsFromPrice | src/templates/generate.js:509-530 | an anchor appears only when its own price field is drawn with non-empty text |
| Resolver.PassGrows | src/templates/generate.js:318-544 | a pass only adds, marks only fields of the template, and does nothing after an exception |
| Resolver.PassStopsAtThrow | src/templates/generate.js:318-544 | an exception ends the pass |
| Resolver.PassAppend | src/templates/generate.js:318 | a pass over two lists is a pass over each in turn |
| Resolver.PassKeepsCursor | src/templates/generate.js:389-398 | fields that never advance leave the image cursor where it was |
| Resolver.CursorBetween | src/templates/generate.js:389-398 | fields between two positions that never advance leave the cursor unchanged |
| Resolver.CursorStep | src/templates/generate.js:397 | each field advances the cursor by at most one |
| Resolver.RunEnds | src/templates/generate.js:314-551 | the run stops on an exception, when every field is done, or after a pass that drew nothing |
| Resolver.DrawVisited | src/templates/generate.js:363-539 | drawing a resolved field logs its specified commands |
| Resolver.VisitField | src/templates/generate.js:318-544 | one iteration of the field loop, as specified by `Visit` |
| Resolver.PassFields | src/templates/generate.js:316-544 | one pass, as specified by `Pass`; `progress` is set exactly when some field was drawn |
| Resolver.GeneratePdf | src/templates/generate.js:287-555 | the document's log is the specified run followed by `end` unless it threw |
| Resolver.GeneratePdfStable | src/templates/generate.js:287-555 | the same with the corrected stopping rule |
| Resolver.StuckFirstVisit | src/templates/generate.js:336-356 | in the two-field example, the first field resolves nothing |
| Resolver.StuckSecondVisit | src/templates/generate.js:342-356 | the second field records `B.left` but stays undrawn |
| Resolver.AsWrittenStopsEarly | src/templates/generate.js:546-550 | the run as written stops with field A undrawn although its box now resolves |
| Resolver.PassKeys | src/templates/generate.js:342-348 | a pass records only names its fields publish |
| Resolver.StableStep | src/templates/generate.js:314-551 | the corrected run's step, and the measures that make it terminate |
| Resolver.QuietPassStuck | src/templates/generate.js:314-551 | after a pass that changes nothing, no undrawn field resolves |
| Resolver.RunStableSettles | src/templates/generate.js:314-551 | the corrected run ends on an exception, with every field done, or with no undrawn field resolvable |
| Scrape.AlphabetCodes | src/client/js/grocery-signs.js:30-32 | the two alphabets are a-z and 0-9a-z |
| Scrape.Chars | src/client/js/grocery-signs.js:26-33 | the alphabet is never empty |
| Scrape.Pick | src/client/js/grocery-signs.js:36 | `chars[Math.floor(r * chars.length)]` with `r` in [0, 1) is a character of the alphabet |
| Scrape.RandomStr | src/client/js/grocery-signs.js:25-39 | `|size|` characters, each picked by its random number |
| Scrape.RandomStrAlphabet | src/client/js/grocery-signs.js:25-39 | a negative size gives letters only, otherwise letters and digits; size 0 gives "" |
| Scrape.Kept | src/client/js/grocery-signs.js:452-455 | the kept items are at most as many as the inputs |
| Scrape.KeptNormal | src/client/js/grocery-signs.js:452-465 | every kept item is normalised and non-empty |
| Scrape.KeptAppend | src/client/js/grocery-signs.js:452-465 | keeping distributes over concatenation |
| Scrape.KeptOne | src/client/js/grocery-signs.js:453-454 | one item is kept, normalised, exactly when its normal form is not empty |
| Scrape.SentencesHead | src/client/js/grocery-signs.js:446-450 | the first three sentences are title, vendor and price, even when empty, and there are only those three without lists |
| Scrape.SentencesNormal | src/client/js/grocery-signs.js:451-465 | every later sentence is non-empty and normal |
| Scrape.PushKept | src/client/js/grocery-signs.js:452-455 | the loop appends the kept items |
| Scrape.ProcessSentences | src/client/js/grocery-signs.js:443-468 | the method builds the specified sentences |
| Scrape.Truthies | src/client/js/grocery-signs.js:479-481 | the kept images are at most as many as the inputs |
| Scrape.TruthiesKeep | src/client/js/grocery-signs.js:479-481 | every kept image is truthy, and there are as many as truthy inputs |
| Scrape.TruthyIndicesSnoc | src/client/js/grocery-signs.js:480 | one more input adds one truthy index exactly when it is truthy |
| Scrape.ProcessImages | src/client/js/grocery-signs.js:477-484 | the method keeps the truthy images in order |
| Templates.FiltersSplit | src/templates/templates.js:183-185 | the two filters split normal text at its last space: all but the last word, and the last word |
| Templates.FilterSettings | src/templates/templates.js:183 | a split field reads its `inputId` and applies its filter |
| Templates.NotStatic | src/templates/templates.js:183 | a field without `type` is not static |
| Templates.FilteredText | src/templates/generate.js:405-410 | the shown text of a filtered field is the filter of the normalised input, then truncated |
| Templates.Template3Parts | src/templates/templates.js:183-190 | the four split fields of Template 3 read FIELD01 or FIELD04 with the matching filter |
| Templates.Template3Halves | src/templates/templates.js:183-190 | Template 3's halves show all but the last word and the last word of their input |
| Templates.Boxed | src/templates/templates.js:124 | a field with four number edges |
| Templates.Placed | src/templates/templates.js:128 | a field with the given edges and further options |
| Templates.RubikBlack | src/templates/templates.js:115-131 | the template's six fields, in order |
| Templates.Template1 | src/templates/templates.js:132-151 | the template's eight fields, in order |
| Templates.Template2 | src/templates/templates.js:152-172 | the template's nine fields, in order |
| Templates.Part | src/templates/templates.js:183 | a split field's options: `inputId`, `filter`, no `type` |
| Templates.Template3 | src/templates/templates.js:173-197 | the template's thirteen fields, in order |
| Templates.Shipped | src/templates/templates.js:114-198 | four templates ship |
| Templates.PriceNames | src/templates/templates.js:128-129 | the price field publishes the names the other fields use |
| Templates.RubikBlackAnchored | src/templates/templates.js:123-130 | every edge is a number or a name FIELD03 publishes |
| Templates.Template1Anchored | src/templates/templates.js:141-150 | every edge is a number or a name FIELD03 publishes |
| Templates.Template2Anchored | src/templates/templates.js:161-171 | every edge is a number or a name FIELD03 publishes |
| Templates.Template3Anchored | src/templates/templates.js:182-196 | every edge is a number |
| Templates.ShippedAnchored | src/templates/templates.js:114-198 | every shipped template is anchored |
| Templates.AnchoredResolves | src/templates/templates.js:123-196 | in an anchored template, FIELD03 always resolves, and every field resolves once FIELD03's names are recorded |
| Templates.EdgeAnchorsResolve | src/templates/templates.js:167-169 | a field placed on another field's edges resolves right after that field's visit |
| Templates.Template2Footer | src/templates/templates.js:169 | Template 2's footer resolves after FIELD03's visit |
| Templates.Template2FieldType | src/templates/templates.js:162-170 | Template 2's fields 5 and 9 are images and field 3 is a price |
| Templates.DefaultType | src/templates/generate.js:324 | the default type is "text" |
| Templates.Template2Type | src/templates/templates.js:162-170 | the merged `type` of each Template 2 field |
| Templates.Template2Images | src/templates/templates.js:166-170 | exactly fields 5 and 9 of Template 2 are image fields |
| Templates.Template2Quiet | src/templates/templates.js:162-170 | the other Template 2 fields never advance the image cursor |
| Templates.Template2Slots | src/templates/templates.js:166-170 | FIELD05 gets image 0 when loaded and FIELD09 the next one |
| Templates.OneSlotAt | src/templates/generate.js:389-398 | with only fields 5 and 9 advancing, the cursor is 0 before field 5 and at most 1 before field 9 |
| Templates.LimitedShown | src/templates/generate.js:409-410 | a number limit bounds the shown text; an interval `[lo, hi]` keeps it below `hi`; no limit at all means at most 100 |
| Templates.PageUnlimited | src/templates/templates.js:114-198 | the template pages set neither `maxLength` nor `type` |
| Templates.PriceLimit | src/templates/templates.js:126 | price fields are limited to 10 characters |
| Templates.ShippedUnlimited | src/templates/templates.js:114-198 | no shipped template sets a page-wide `maxLength` |
| Templates.RubikBlackLimits | src/templates/templates.js:126-128 | FIELD03 is limited to 10 characters and FIELD05 to a draw in [5, 30] |
| Templates.PriceFieldLimits | src/templates/templates.js:144 | the price fields of Templates 1 and 2 are limited to 10 characters |
| FieldNames.Assign | src/server/templates.js:40 | assigning a key keeps insertion order: a new key goes last, an existing one stays in place |
| FieldNames.MergeFieldNames | src/server/templates.js:32-43 | the loop computes the specified merged names |
| FieldNames.FirstIndex | src/server/templates.js:43 | the first position of a name |
| FieldNames.DedupeKeys | src/server/templates.js:40-43 | `Object.keys` of the dictionary holds each candidate once, in order of first assignment |
| FieldNames.FieldsNamesMembers | src/server/templates.js:36-40 | a template contributes exactly the `inputId`-or-id of its non-image, non-static fields |
| FieldNames.CandidatesMembers | src/server/templates.js:34-40 | the candidates are exactly those names over every template |
| FieldNames.MergedNames | src/server/templates.js:32-43 | the exported names are exactly the candidates, without repetition, in order of first appearance |

## Left out

- Division by zero, NaN, the infinities and floating-point rounding: arithmetic is on `real`. `Layout.Div` gives 0 where JavaScript gives an infinity or NaN. Width `+Infinity` in `fitWords` is modelled exactly, as `Fit.Inf`.
- Wrap.WrapText and Wrap.WrapRec require a box of positive width and height and a positive `maxRatio`. When the padded box has a non-positive width or height, or `maxRatio <= 0`, Render.TextBody draws nothing (it returns no commands). The source still emits its scale and text commands there, with negative or infinite scales (src/templates/generate.js:164-196, 430-463); those commands are not modelled.
- The current and browser generations' upward shift of the main price part for OpenType fonts (src/templates/generate.js:513-525, src/grocery-signs.js:432-444) is not modelled. It reads glyph metrics the font model does not carry.
- Options of the wrong JavaScript type are not modelled. `Render.NumOr` reads a non-number padding or ratio as its default and an undefined `mainHeight` as 0. A non-string `color` is read as black. A price field whose `currency` is not a string draws nothing.
- Edges that are neither numbers nor strings (objects, arrays) count as unresolved.
- A non-string `inputId` in the field-name merge counts as absent.
- Separators other than a string or a one-class regular expression such as `/[.,]/` leave the text whole.
- `toUpperCase` is modelled on ASCII letters only: Unicode case mapping is not modelled.
- Seeds are integers. A `#seed` text that is not a number (NaN in `srandom`) is not modelled, and neither is the loss of precision when a seed's magnitude exceeds 2^53 / 9301, where JavaScript's first multiplication rounds and the model's does not.
- Options.Truncate, Price.CurrentPartsSplit and Fonts.CountGlyphs count Unicode code points, not UTF-16 code units. JavaScript's `length`, `substring` and `charAt` count UTF-16 units. So text outside the Basic Multilingual Plane (emoji, for instance) is cut, split and looked up differently: `"😀😀😀".substring(0, 2)` keeps one emoji where Truncate keeps two, and a main price part of three emoji has `length` 6 > 4 in JavaScript but 3 here. A cut inside a surrogate pair is not modelled. The same holds wherever the model takes `|s|` of a string.
- Fit.BestMonotone and Fit.BestAntitone assume a monotone measure: a line is at least as wide as any part of its words. Real font metrics with negative kerning can break this, and then a wrap with more lines can be wider.
- Coordinate resolution depends on the order of the fields, and the model does not state that it is order-independent. It is not, as Resolver.AsWrittenStopsEarly shows: A is left undrawn because it comes before B, whose left edge it needs. Order independence is not stated for the corrected run RunStable either.
- I/O is not modelled. This covers the PDF stream, `doc.pipe`, `doc.end`'s output, `blobStream`, the DOM and jQuery, the HTTP server and the scrapers.
  - Input field values are a parameter (`Job.inputs`).
  - `Math.random` in `randomStr` is a sequence of numbers in [0, 1).
- PDFKit's internals are not modelled: fonts, glyph metrics, image decoding and the page size. The drawing calls are logged, not rendered.
  - Whether PDFKit can decode an image is a flag of the image, which decides whether the `try` in src/templates/generate.js:392-396 draws it.
- The `DEBUG` outlines are not modelled: `DEBUG` is false in every generation.
- `Object.keys` ordering of integer-like keys and inherited (prototype) keys are not modelled. Template fields are a sequence with distinct ids, and the shipped ids are not integer-like.
- The `if (!cache[string])` test recomputes memoised zero widths. Its only effect is time, so the memo is modelled as always hit.
- `imageIndex <= images.length` in src/templates/generate.js:391 is modelled as the index being in range. Past the end, `images[imageIndex]` is `undefined` and nothing is drawn, which is the same behaviour.
- The earlier template snapshots `src/templates.js` and `templates.js`, and the original generation's `randomStr` and scrape callbacks, are not part of this model. They are superseded by the files above.
- The client calls to `normalizeString` (src/client/js/grocery-signs.js:447-449) use the copy loaded from src/templates/generate.js:207-214, the one modelled as `Text.NormalizeString`. The browser copy in src/grocery-signs.js:106-113 is textually the same.
- The lemmas about Template 2's image fields assume the global options do not set `type` to "image". Such a setting would turn every untyped field into an image field.

## Findings

| source | as written | input that shows it | evidently intended | confidence | as-written member | corrected member |
|---|---|---|---|---|---|---|
| src/templates/generate.js:314-356, 539-551 (also src/grocery-signs.js:273-313, 460-468 and grocery-signs.js:161-189, 294-302) | `progress` is set only when a field is drawn, so a pass that only records new edge names ends the loop | two fields: A with `left: "B.left"`, then B with `top: "Z.top"` and number left, right and bottom; the first pass records `B.left` after A was skipped and draws nothing, so the run stops with A undrawn although its box now resolves | stop only when no undrawn field can be placed: a pass that records a new name also counts as progress | medium, not executed | Resolver.AsWrittenStopsEarly | Resolver.RunStableSettles |
| src/templates/generate.js:26-29, 41-49 (also src/grocery-signs.js:40-43, 87-95, 802-820) | `%` keeps the sign of a negative seed, so `srandom()` returns a value in (-1, 0] and `Math.floor(srandom() * (i + 1))` can be negative; `array[j]` then reads `undefined` and `array[j] = temp` writes a non-index property | seed -10 (`?randomize=-10`, src/server/index.js:481, or the `#seed` box) on sentences ["a", "b"]: the state becomes -43713, the index is -1, and the result is `["a", undefined]` with "b" under the property "-1" | bring the seed into [0, 233280) first, so that every seed shuffles and a shuffle is a permutation | high, not executed | Random.NegativeSeedLoses | Random.ShuffleSentencesReduced |
