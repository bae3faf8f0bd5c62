# Traffic-light signal logic in Dafny

This project models the signal-state logic of the traffic-light renderer:

- **Stage resolver** (`stage` and `stage_id` of trafficlight.cpp), in module `Resolver`.
  - Given a light, a phase offset and a time in seconds, it finds the stage of the light's timeline that is showing.
  - It reduces `(time + offset)` modulo the loop time with C's truncating `%`.
  - It scans the stage list up to its empty-state terminator.
- **Derived-layout fold** (`fill_lamps` of trafficlight.cpp), in module `LampFold`.
  - It folds the state strings of all stages, in place, into one `{color, shape, symbol, exists}` record per lamp position.
  - A colour conflict turns the record white, and a symbol conflict clears its symbol.
  - A shape conflict is only reported.
- **Placement** (`by_name`, the column arithmetic of `load_draw_instructions`, and `draw_light_spec` of trafficlight.cpp), in module `Placement`.
- **Layout/state decoder** (`light` and `error_once` of draw.c), in modules `Decoder`, `DecoderFacts` and `Warnings`.
  - The drawing calls are replaced by the records they would draw: backing squares from the margin pass, and lamps from the lamp pass.
  - A lamp record has a row, column, vertical offset, size, large flag, colour, lit flag, shape, symbol and drawn flag.
  - `error_once` is a class over its static table of flags.
- **Draft decoder** (`light` of trafficlight.c) and the scene cycle of its `render_frame`, in module `Draft`.

Shared modules:

- `Signal` holds the enumerations and records of trafficlight.h.
  - Its `Spec` holds the parts of a light specification the signal logic reads: loop time, layout and stages. Light names are a separate sequence for `by_name`, and lamp records a separate array for `fill_lamps`.
  - The zero-filled terminator of the stage array is the end of the sequence.
- `CInt` holds C's truncating `/` and `%`. Every division of the sources is written with them.
- `Wrappers` holds `Option` and `Result`.
- `SeqFacts` holds one indexing fact about concatenations.

How the model is built:

- Loops of the source are methods with loop invariants.
- Each method is proved equal to a specification function defined by recursion on the prefix of its input: `lamps == Lamps(init, layout, env)`, `lamps[..] == FoldStages(old(lamps[..]), Live(stages))`.
- The lemmas state what those functions mean.

How a `#` position is treated:

- A position with layout colour `#` is drawn when its state character is `r`, `y`, `g` or `w`. The state character overrides the colour before the "do not print" test (draw.c:337-349, 369).
- `DecoderFacts.DrawnExactly` states the exact rule: a position is undrawn exactly when its layout character is `#` and its state character does not override the colour.

## Model

| member | source | states |
|---|---|---|
| CInt.CDivTruncates | draw.c:326-333 | C's `/` truncates toward zero: `(a/b)*b + a%b == a`, the quotient is the exact one rounded toward zero, and when non-zero it has the exact quotient's sign |
| CInt.CRem | draw.c:364 | C's `%` has the sign of the dividend and is smaller in size than the divisor |
| CInt.CRemPeriodic | trafficlight.cpp:188 | adding a multiple of the loop time to a non-negative sum leaves the C remainder unchanged |
| Resolver.LiveCount | trafficlight.cpp:189 | the scan visits exactly the stages before the first one with an empty state |
| Resolver.FirstActiveFrom | trafficlight.cpp:205-213 | the result is -1 or the first live index from `i` whose stage has started and whose successor has not (or has offset 0); every live stage before it is inactive |
| Resolver.StageId | trafficlight.cpp:203-217 | `stage_id` returns the first live active index, or -1 exactly when no live stage is active at `(time + offset) % loop_time` |
| Resolver.StageOf | trafficlight.cpp:187-201 | `stage` returns the stage at the index `stage_id` returns, or the empty stage when that index is -1 |
| Resolver.Coverage | trafficlight.cpp:188-196 | on a timeline starting at 0 with increasing offsets and non-empty states, every non-negative loop position is covered by the stage whose interval contains it |
| Resolver.PhaseAndPeriod | trafficlight.cpp:188 | for `time + offset ≥ 0` the stage depends only on `time + offset` modulo the loop time: `StageIdAt(spec, o, t + k·L) == StageIdAt(spec, 0, t + o)` (C's `%` truncates, so negative sums are excluded) |
| Resolver.ThreeStageExample | trafficlight.cpp:203-217 | for any non-empty states a, b, c, stages (0,a), (20,b), (25,c) with loop 50 show a for 0..19, b for 20..24 and c for 25..49, repeat after 50, and offset 25 at time 0 equals time 25 |
| Resolver.GapExample | trafficlight.cpp:205-216 | with the single stage (5,a), time 0 is covered by nothing and the resolver falls back to -1 |
| LampFold.FoldChars | trafficlight.cpp:277-353 | folding a state string keeps one record per lamp position |
| LampFold.FoldStages | trafficlight.cpp:270-354 | folding all stages keeps one record per lamp position |
| LampFold.MergeLamp | trafficlight.cpp:330-346 | the array changes only at `id`, to the merge of the old record with the occurrence; a shape change is reported exactly when the record was present with another shape |
| LampFold.FoldState | trafficlight.cpp:271-353 | one stage's scan leaves the array equal to `FoldChars` of the old contents and reports the shape changes of `CharWarnings` |
| LampFold.FillLamps | trafficlight.cpp:267-355 | the array ends as the fold of every live stage, in order, over the old contents |
| LampFold.FoldCharsAt | trafficlight.cpp:277-353 | one state string changes position `p` at most once, by merging its own lit occurrence (the `p`-th colour token with its pending shape and symbol); `_` leaves it untouched |
| LampFold.FoldStagesAt | trafficlight.cpp:270-354 | after all stages, position `p` is the merge of its lit occurrences in stage order |
| LampFold.MergeAllFromEmpty | trafficlight.cpp:330-346 | from an empty record the merge gives the first occurrence's shape, the common colour or white, and the common symbol or none, and marks the record present |
| LampFold.DerivedLayout | trafficlight.cpp:267-355 | per position: unlit in every stage keeps the zeroed record; otherwise present, with the first shape, the common colour (white on conflict) and the common symbol (none on conflict) |
| LampFold.MergeAllRefines | trafficlight.cpp:330-345 | merging never clears `exists`, never changes a present shape, keeps white white and keeps no-symbol; the record is present exactly when it was or some occurrence was merged |
| LampFold.FoldStagesMonotone | trafficlight.cpp:267-355 | at every position the folded record refines the old one |
| Warnings.ShownAfter | draw.c:83-88 | the table keeps its size |
| Warnings.WarningLog.constructor | draw.c:83 | the table starts with every flag clear |
| Warnings.WarningLog.ErrorOnce | draw.c:82-89 | prints exactly when the character's flag was clear, and sets only that flag |
| Warnings.PrintedAppend | draw.c:83 | the table persists between calls: reporting `a` then `b` prints what reporting `a + b` prints |
| Warnings.PrintedOnce | draw.c:82-89 | the printed characters are pairwise distinct, each was reported and not yet flagged, every reported unflagged character is printed, and the table afterwards is the old flags plus the reported characters |
| Decoder.MarginPass | draw.c:195-244 | the margin loop produces `Margins` with `.` anchoring at 0, and leaves the large marker as `MarginAfter` says |
| Decoder.ReadState | draw.c:335-361 | `r y g w` override the colour; `_` turns the lamp off; `f`/`F` set the flash mode; anything else changes nothing |
| Decoder.DrawPosition | draw.c:326-371 | one position's record is `Emit` of the cursor: its geometry, its state character's colour and its flash rule |
| Decoder.ReportUnknown | draw.c:322-323 | an unknown character is passed to `error_once`; the printed warnings and the table follow `Printed` and `ShownAfter` of the reported sequence |
| Decoder.LampPassLoop | draw.c:249-379 | the lamp loop produces `Lamps` from a cursor with the inherited large marker, and reports exactly the unknown position characters, in order, through `error_once` |
| Decoder.Light | draw.c:170-382 | `light`: the margin boxes of the margin pass, the lamp records of the lamp pass with the current stage's state, and the `error_once` output |
| DecoderFacts.LampAppend | draw.c:249-379 | decoding `s + t` is decoding `s` and then `t` from the cursor `s` leaves |
| DecoderFacts.Counting | draw.c:249-379 | one record per position character, in order; the `k`-th reads state character `k` and takes its colour from it and from the `k`-th position character; a record is drawn exactly when its colour is not `#` |
| DecoderFacts.DrawnExactly | draw.c:250-270 | a position is undrawn exactly when its layout character is `#` and its state character is not `r y g w`; an unknown layout character without an override gets the unset colour |
| DecoderFacts.RowBounds | draw.c:271-288 | rows stay between 0 and the number of positions so far, and the anchor is -1 or a row already reached |
| DecoderFacts.Geometry | draw.c:326-333 | `yOffset = size·row + (earlier large records)·size/2`; a large record is `size·3/2` wide |
| DecoderFacts.RunWithoutGrouping | draw.c:326-333 | without `: ; .` rows count up by one per position, and the column stays put except that a large lamp moves left by `size/4` |
| DecoderFacts.AnchorSnoc | draw.c:271-284 | `:`/`;` move the row to the anchor, or make the row the anchor, and move the column half a size left or right |
| DecoderFacts.DoghouseRows | draw.c:271-284 | in `p:a;b` with no anchor after `p`, the `j`-th lamp after `;` has the row of the `j`-th lamp after `:`; the groups sit half a size left and right |
| DecoderFacts.DoghouseExample | draw.c:271-284 | every layout of the shape `c0:c1<c2;c3c4` with five position characters, such as `_:_<g;_g`, gives five lamps on rows 0, 1, 2, 1, 2 |
| DecoderFacts.ModifierStep | draw.c:289-321 | a non-position character sets only its own pending modifier (`s`/`d` the shape, the arrows, bars and cross the symbol, `f`/`F` the flash, `l` the large marker) and consumes no state character |
| DecoderFacts.AfterPosition | draw.c:373-376 | after a position the shape is a circle, there is no symbol, no flash and no large marker, and one state character per position has been read |
| DecoderFacts.ModifierRun | draw.c:289-321 | a run of modifiers emits nothing and consumes no state character; it sets only the pending shape, symbol, flash and large marker |
| DecoderFacts.PendingAppliesOnce | draw.c:289-321 | the modifiers written before a position, after the previous position or from a clear start, decide its shape, symbol, size and lit state alone |
| DecoderFacts.MarginCount | draw.c:195-244 | the margin pass emits one box per position character, as the lamp pass does |
| DecoderFacts.CorrectedMarginsAgree | draw.c:211-214 | with `.` clearing the anchor to -1 and the large marker cleared between passes, every backing square lies exactly under its lamp |
| DecoderFacts.MarginsAfterDotAnchor | draw.c:197-214 | as written, the margin pass restarts at row 0 after `.:` |
| DecoderFacts.LampsAfterDotAnchor | draw.c:271-288 | the lamp pass keeps counting rows after `.:` |
| DecoderFacts.DotAnchorMismatch | draw.c:211-214 | as written, in `p.:a` every square after `:` is as many rows above its lamp as `p` has positions |
| DecoderFacts.TrailingLargeMargins | draw.c:215-217 | as written, for a position followed by `l` the margin pass draws one ordinary square on row 0 and leaves the large marker set |
| DecoderFacts.TrailingLargeLamps | draw.c:329-333 | for every layout starting with a position, a lamp pass started with the large marker set draws its first lamp large, `size·3/2` wide, `size/4` to the left, on row 0 |
| DecoderFacts.TrailingLargeLowersNext | draw.c:245-248 | as written, in `c0 c1 l` the second square is one size down but the second lamp, counted after a large one, is half a size further down (15 against 10 at size 10) |
| DecoderFacts.TrailingLargeCarries | draw.c:245-248 | as written, for any position `c` followed by `l` (such as `rl`) the lamp pass inherits the large marker: the lamp is `size·3/2` wide and `size/4` left (15 wide at x−2 for size 10) over an ordinary square at x |
| DecoderFacts.FlashPhases | draw.c:364-367 | for time ≥ 0 the phase is 0 or 1 and the two flash modes are dark in complementary half-cycles; no flash is never dark; for negative time mode 2 is never dark |
| DecoderFacts.FlashPeriod | draw.c:364-367 | the flash pattern repeats every 1500 ms |
| DecoderFacts.FlashSlots | draw.c:364-367 | times 750q to 750q+749 are in phase q mod 2 |
| Draft.DraftLight | trafficlight.c:267-318 | the draft loop draws `DraftLamps` with 0 as the no-anchor value, and warns once per unknown character occurrence |
| Draft.DraftAppend | trafficlight.c:272-317 | decoding `s + t` is decoding `s` and then `t` from where `s` leaves the cursor |
| Draft.DraftCounting | trafficlight.c:275-316 | one lamp per character other than `: ; < > ^`, of the colour it names (indeterminate if unknown), of the light's size, at `y + size·row` |
| Draft.DraftRun | trafficlight.c:314-316 | without `:`/`;` rows count up by one per lamp and the column persists |
| Draft.ArrowOnce | trafficlight.c:268-315 | an arrow applies to the next lamp only; that lamp, the first of the layout included (as in `<r__`), gets the last arrow written before it, and no arrow gives a full lamp |
| Draft.DraftDoghouseRows | trafficlight.c:288-301 | in `p:a;b` the lamps after `:` continue the rows half a size left; those after `;` start from the resumed row half a size right |
| Draft.DoghouseIntended | trafficlight.c:288-301 | with -1 as no-anchor, the `j`-th lamp after `;` shares the row of the `j`-th lamp after `:` |
| Draft.ZeroAnchorLost | trafficlight.c:288-299 | as written, a doghouse opened on row 0 loses its anchor: the lamps of `:a;b` are on rows 0, 1, 2, … |
| Draft.SentinelUnused | trafficlight.c:270 | without `:`/`;` the no-anchor value is never read: both values draw the same lamps |
| Draft.SentinelHarmlessAfterFirstLamp | trafficlight.c:289-299 | once a lamp is drawn before the first `:`/`;`, the 0 and -1 no-anchor values draw the same lamps |
| Draft.SafeLayoutUnaffected | trafficlight.c:270 | a layout with no doghouse or starting with a lamp is drawn the same under both no-anchor values |
| Draft.SceneBlocks | trafficlight.c:333 | frames 60q to 60q+59 show scene q mod 6 |
| Draft.SceneCycle | trafficlight.c:333-377 | for frame ≥ 0 the scene is one of six lists of five lights, and the cycle repeats every 360 frames |
| Draft.ScenesUnaffected | trafficlight.c:333-377 | every light of the six scenes is drawn the same under both no-anchor values |
| Placement.FirstIndexFinds | trafficlight.cpp:409-417 | the lookup succeeds exactly when the name is present, and returns its lowest index |
| Placement.ByName | trafficlight.cpp:409-417 | `by_name` returns the lowest index with that name, or the error result exactly when no light has it |
| Placement.LoadDrawInstructions | trafficlight.cpp:441-453 | the placement loop gives `Load` of its lines |
| Placement.LoadFails | trafficlight.cpp:446 | loading fails exactly when some line names no light, and fails with the first such name |
| Placement.LoadPlaces | trafficlight.cpp:441-453 | each line gives one instruction with its top, size and offset and the first matching light; its column is as given, `window_w/2 - size/2` for -2, or the previous column plus twice the previous size for -1 |
| Placement.DrawLightSpec | trafficlight.cpp:219-230 | the lamps drawn are those of the stage active at `ms/1000` seconds, with flashing from `ms` |

## Left out

- Window, event loop, frame pacing, clock reads and signal handling (trafficlight.cpp:18-157, trafficlight.c:9-153). These are I/O. Times and frame numbers are parameters.
- Cairo drawing, the floating-point colour table and the `rtl` rotation (draw.c:11-168, 187-193, 381). Drawing is replaced by records. The name, rtl flag and lamp records of a light specification are not fields of `Spec`, which holds only what the modelled operations read.
- `lamp` of trafficlight.c and `margin`/`lamp` of draw.c draw shapes with floating point. They are not part of this model.
- File loading and parsing in `load_light_specs` and `load_draw_instructions`: `fopen`/`fgets`/`sscanf`, skipping comment and blank lines, the format message. These are I/O. The model starts from the parsed lines.
- `print_light_spec`, the warning text of `stage`/`stage_id`, and the `light_printed` bitmask (trafficlight.cpp:161-182, 198-199, 214-215, 455-473). These are printing.
- `render_frame` of trafficlight.cpp (its loop over the instructions) is not modelled. One iteration is `Placement.DrawLightSpec`.
- Resolver.LiveCount: ends the scan at an empty state string. The C loop ends at a state whose first byte is NUL; a model string stands for the characters before the NUL, so it never starts with `'\0'`, and a string that did is not covered.
- Decoder.IsPosition: counts `'\0'` as a position. The C loops over a layout stop at its NUL; a model layout stands for the characters before the NUL, so a layout containing `'\0'` is not covered.
- Integer widths: `int` and `long` overflow, the wrap of the frame counter, and signed `char` values are not modelled. All integers are unbounded.
- Resolver.StageId: requires a non-zero loop time. The source divides by it.
- Placement.ByName: models `exit(1)` as the `None` result.
- Placement.LoadDrawInstructions: requires the first line not to use -1, because `last_x` is uninitialised then.
- Placement.DrawLightSpec: requires that some stage covers the time, because the source indexes the stages with -1 otherwise. It also requires the state string to cover the layout, as `Decoder.Light` does.
- Decoder.Light: requires the state string to have at least as many characters as the layout has positions, less one: the last position may read the terminating NUL, and reading past it is undefined.
- Decoder.Light: requires every unknown layout character to fit the 226-entry warning table.
- LampFold.FillLamps: requires every state string to have no more colour tokens than the lamp array has records. The source writes without a check. The bound also counts `_` tokens, which the source never writes for, so a state whose only tokens past the array end are `_` is safe in C but excluded here.
- Draft.DraftLight: the uninitialised colour of an unknown character is the distinct value `Indeterminate`, not any particular garbage value.
- The corrected margin pass (`.` anchoring at -1, large marker cleared) is stated only as a lemma, `DecoderFacts.CorrectedMarginsAgree`; `Decoder.Light` draws as written.

## Findings

| source | as written | input that shows it | evidently intended | confidence | as-written member | corrected member |
|---|---|---|---|---|---|---|
| draw.c:211-214 | in the margin pass `.` sets the doghouse anchor to 0; the lamp pass (draw.c:285-288) clears it to -1 | layout `r.:g`: the square of `g` is on row 0, its lamp on row 1 | `.` clears the anchor to -1 in both passes, so every square lies under its lamp | not executed | DecoderFacts.DotAnchorMismatch | DecoderFacts.CorrectedMarginsAgree |
| draw.c:245-248 | `next_large` is not reset between the margin pass and the lamp pass | layout `rl`: the lamp is drawn 15 wide at x−2 over a 10-wide square at x; and in `r_l` the second lamp is 15 down over a square 10 down (DecoderFacts.TrailingLargeLowersNext) | the lamp pass starts with `next_large` false | not executed | DecoderFacts.TrailingLargeCarries | DecoderFacts.CorrectedMarginsAgree |
| trafficlight.c:270, 289-299 | 0 is both the "no anchor" value and a valid row | layout `:_g;_g`: the four lamps are on rows 0 to 3 | the lamps after `;` share the rows of those after `:` (rows 0, 1, 0, 1) | not executed | Draft.ZeroAnchorLost | Draft.DoghouseIntended |
