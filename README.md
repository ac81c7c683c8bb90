# Evasive "No" button — verified model

This project models the page script of a Yes/No prompt. Each click on the "No"
button makes the "Yes" button bigger and moves "No" to a random safe spot in the
viewport. Once "No" has escaped, hovering over it may move it again, resizing the
window places it afresh, and scrolling writes its stored position back.

Modules:

- `Numbers`: JavaScript's `Math.min` and `Math.max` on reals.
- `Growth`: the click step, the font size, max-width and container min-height
  computed from the scale, and the label progression of the "Yes" button.
- `Placement`: `getSafePosition`, i.e. a random draw clamped into the viewport.
- `Evasion`: the class `Controller`. Its fields are the script's closure
  variables (`scale`, `hasEscaped`, `storedPosition`), the "Yes" label, and the
  numbers the handlers write to the page. It has one method per event handler.
  Its invariant `Valid()` ties the fields to a ghost click count.

Scale, sizes and coordinates are modelled as `real`. The scale only takes
quarter steps, so no floating-point rounding is involved. The random draws
(`Math.random`) are parameters of type `Draw`, the reals in [0, 1). The viewport
size and the measured button size are a `Measure` parameter.

## Model

| member | source | states |
|---|---|---|
| Growth.ScaleAfter | script.js:12-41 | the scale starts at 1, each click adds 0.25, so after n clicks it is 1 + n/4 and never below 1 |
| Growth.FontSize | script.js:45 | the font size never exceeds 40 and never exceeds 22 + 8·scale; it equals 40 exactly when the scale is at least 2.25 |
| Growth.MaxWidth | script.js:49 | the max-width never exceeds 300 and never exceeds 200 + 30·scale; it equals 300 exactly when the scale is at least 10/3 |
| Growth.MinHeight | script.js:52 | the container min-height is never below 220 or below 140 + 100·scale; it equals 220 exactly when the scale is at most 0.8 |
| Growth.LookFor | script.js:42-52 | the values a click writes: transform scale equal to the scale, font at most 40, width at most 300, height at least 220 |
| Growth.LookMonotone | script.js:45-52 | font size, max-width and min-height are all non-decreasing in the scale |
| Growth.MinHeightFloorInactive | script.js:52 | after at least one click the 220 floor never binds: the min-height is 140 + 100·scale, at least 265 |
| Growth.SaturationInClicks | script.js:41-49 | the font reaches its cap exactly from the 5th click on, the max-width exactly from the 10th |
| Growth.NextLabel | script.js:55-57 | above 3.5 the label becomes "THINK ABOUT IT", in (2.5, 3.5] "PLEASE", in (1.5, 2.5] "Are you sure??" but only in place of "Yes", and at or below 1.5 it is unchanged |
| Growth.Stage | script.js:55-57 | each scale falls in one of the four stages of the label progression |
| Growth.LabelStep | script.js:41-57 | if the label matches the table for scale s, the click's update gives the table's label for s + 0.25 |
| Growth.ProgressionDistinct | script.js:55-57 | the four labels are pairwise different |
| Growth.StageMonotone | script.js:55-57 | a larger scale never gives an earlier stage |
| Growth.LabelNeverReverts | script.js:55-57 | at a larger scale the label is none of the labels that came before the label of a smaller scale |
| Growth.LabelInClicks | script.js:41-57 | after 0-2 clicks the label is "Yes", after 3-6 "Are you sure??", after 7-10 "PLEASE", from 11 on "THINK ABOUT IT" |
| Numbers.Min | script.js:29-30 | the result is one of the two arguments and at most both |
| Numbers.Max | script.js:29-30 | the result is one of the two arguments and at least both |
| Placement.InsideIff | script.js:25-26 | the whole button keeps a 10 margin from every viewport edge exactly when x lies in [10, maxX] and y in [10, maxY], so maxX and maxY are the largest such coordinates |
| Placement.SafeCoord | script.js:29-30 | a coordinate is always at least 10; at most maxC when maxC ≥ 10; exactly 10 when maxC < 10; and equal to the shifted draw 10 + r·maxC whenever that fits |
| Placement.SafeCoordReaches | script.js:29-30 | when maxC ≥ 10, every value in [10, maxC] is produced by some draw in [0, 1) |
| Placement.SafeCoordEdge | script.js:29-30 | every draw of at least (maxC − 10)/maxC is clamped to exactly maxC |
| Placement.SafePosition | script.js:17-33 | with maxX and maxY as at lines 25-26: both coordinates are at least 10; when there is room in both directions the whole button lies inside the viewport with a 10 margin; in a direction without room the coordinate collapses to 10 |
| Placement.DegenerateOverflows | script.js:25-30 | when the button is too wide, x is 10 and the button's right edge reaches into the margin or past the viewport |
| Evasion.Controller.constructor | script.js:12-14 | initial state: scale 1, not escaped, no stored position, nothing written yet, the label reads "Yes" |
| Evasion.Controller.Click | script.js:36-80 | the scale rises by exactly 0.25; the label follows the threshold update and its stage never goes back; escaped becomes and stays true; the stored position is the new safe position and equals the left/top just written; the growth values are those of the new scale; the invariant is kept |
| Evasion.Controller.Hover | script.js:83-90 | the button moves, to a new safe position that is also stored, exactly when it has escaped and the coin exceeds 0.7; scale, label, escape flag and growth values are unchanged |
| Evasion.Controller.Resize | script.js:93-100 | an escaped button is always moved to a fresh safe position, which is stored; a button that has not escaped is left alone; nothing else changes |
| Evasion.Controller.Scroll | script.js:103-108 | scrolling changes nothing: stored position, scale, label, escape flag and written values stay as they were |
| Evasion.SevenClicks | script.js:41-57 | seven clicks give scale 2.75, label "PLEASE" and font size 40, whatever layout is measured and whatever fresh draws are taken at each click |
| Evasion.FirstClick | script.js:17-68 | in a 1024×768 viewport with an 80×40 button, the first click gives scale 1.25, escaped, and a position in [10, 934]×[10, 718] |

The invariant `Evasion.Controller.Valid` holds after every handler. It says:

- the scale is `ScaleAfter` of the click count;
- the label is `LabelFor` of the scale;
- the button has escaped exactly when there has been a click;
- a position is stored exactly when the button has escaped;
- the left/top last written are the stored position;
- no growth values have been written before the first click, and after one they
  are `LookFor` of the current scale.

Two consequences follow. The `storedPosition` test in the resize and scroll
handlers is always true once `hasEscaped` is. Re-writing the stored position on
scroll is also a no-op in the model.

One might expect every coordinate to lie in `[10, maxX]`. When `maxX < 10` that
interval is empty, and the code returns 10, so a button too large for the
viewport reaches into the margin or past the edge (`Placement.SafeCoord`,
`Placement.DegenerateOverflows`).

`Placement.SafeCoordEdge` shows a property of the draw as written. The shifted
draw `10 + r·maxX` can reach up to `10 + maxX`, so every draw in the top
`10/maxX` of [0, 1) lands on the edge coordinate `maxX`. The position is
therefore not uniform over [10, maxX]. This is recorded as a property, not as a
defect.

## Left out

- Startup lookup of the buttons and container and the "Buttons not found!" early return (script.js:3-10): DOM queries. The model starts from a controller that exists.
- Forced reflow and the `getComputedStyle`/`offsetWidth` measurement (script.js:18-22): browser layout calls. The measured sizes are the `Measure` parameter.
- `Math.random` (script.js:29-30, 84): a foreign random source. Its draws are `Draw` parameters in [0, 1).
- CSS strings, `setProperty(..., 'important')`, the `escape-mode` class and the `transform: none` write (script.js:42-73): style I/O. Only the numbers written are modelled (`look`, `shown`).
- The animation reset through `requestAnimationFrame` (script.js:76-79): asynchronous and cosmetic.
- `preventDefault` and `stopPropagation` (script.js:37-38): event plumbing.
- The "Yes" click celebration, the revealed passage and the confetti: not in this script, and purely visual and asynchronous.
- The page markup: index.html is not part of this model. The constructor assumes, as the test at script.js:55 does, that the "Yes" button first reads "Yes".
- IEEE floating point, `NaN` and infinite sizes: values are reals. The scale takes only quarter steps, so this loses nothing for the scale.
- Scroll drift: the model has no page coordinates, so it cannot express the drift the scroll handler corrects. `Evasion.Controller.Scroll` states only that the state is unchanged.
