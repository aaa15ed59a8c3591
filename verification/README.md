# Trigonometri — a Dafny model of the calculator, diagrams and page logic

Trigonometri is a single-page web application for learning trigonometry. Its
logic lives in two browser scripts:

- `components.js` holds the maths and the two canvas diagrams:
  - degree/radian conversion;
  - `calculateTrigValues` with its special handling of multiples of 90°;
  - `roundValue`;
  - the right-triangle and unit-circle drawings;
  - the calculator display;
  - the canvas sizing rule and the resize listener.
- `script.js` is the page state machine:
  - `showPage` with its navigation highlight and per-page redraws;
  - routing from the URL fragment on `load`;
  - the calculator button, the triangle slider and the unit-circle angle buttons.

This project models those parts as pure Dafny functions over immutable data
and proves what they guarantee.

| module | file | models |
|---|---|---|
| `JsArith` | `js_arith.dfy` | JavaScript's truncated `%`, `Math.round`, `Math.min`/`Math.max` and `parseInt`'s truncation, all over exact reals; the non-NaN number values |
| `AngleMath` | `angle_math.dfy` | `degToRad`, `radToDeg`, `roundValue` |
| `Trig` | `trig.dfy` | `calculateTrigValues`, `updateCalculatorDisplay` |
| `Geometry` | `geometry.dfy` | `drawTriangle` and `drawUnitCircle`, each as the record of points, arcs and label anchors it paints |
| `CanvasSizing` | `canvas_sizing.dfy` | `resizeCanvasToContainer` |
| `App` | `app.dfy` | the script.js handlers, `initializeVisualizations` and the window-resize listener of components.js |
| `Wrappers` | `wrappers.dfy` | `Option`, for DOM look-ups that may find nothing |

How the model is set up:

- **Inputs instead of the host.** The host's `Math.sin`, `Math.cos`, `Math.tan` and `Math.PI` are not modelled. Their values come in as inputs: `Trig.Sample`, `Geometry.Direction`, and the `pi` parameter.
- **Handlers as steps.** Every event handler maps an `App.AppState` to an `App.Step`. A step is the new state plus the ordered list of drawing requests the handler issues.
- **What a canvas shows.** `App.Shown` replays the requests on one target. A draw paints its angle. A refit blanks the canvas, because assigning `canvas.width` or `canvas.height` resets the bitmap even when the size does not change.

Highlights of what is proved:

- **Undefined tangent.** The two truncated-remainder tests of `calculateTrigValues` mark the tangent undefined exactly for 90, 270, 450, …. The negative odd multiples -90 and -270 fail the second test, because `%` keeps the dividend's sign, so they show a number.
- **Rounding.**
  - `roundValue` gives the unique grid point of step 1/1000 in the window (v − 1/2000, v + 1/2000].
  - Halves go toward +∞: -0.0005 becomes 0.
  - Rounding twice changes nothing.
- **Triangle.**
  - The triangle has its right angle at B.
  - Its legs scale with the canvas width only: the height moves the whole figure and never reshapes it.
  - On the 400 × 300 canvas the sizing rule produces, the apex's row stays on the canvas only while −0.125 ≤ sin θ ≤ 0.8125; from about 54.3° up it is cut off at the top.
- **Unit circle.**
  - The circle's point lies on the circle, above the centre exactly when the sine is positive.
  - Its coordinate readout agrees with the calculator's values.
- **Pages.**
  - After `showPage` at most one page is active, and it is the requested one.
  - Reloading returns to the page that was showing, for any of the six routable pages.
  - After `load` the diagrams always show 30° and 0°, whatever the route redrew.
  - On the special-angles page, a clicked angle button survives a revisit, and so does an angle typed into the calculator, because a revisit then redraws nothing.
  - On the comparison page, a revisit redraws the triangle at the whole-degree part of the slider's value.

## Facts about the code worth knowing

The model follows the code in each case:

- **Tie-breaking.** `Math.round` rounds ties toward +∞, not away from zero, so -0.0005 shows as 0 (`AngleMath.DisplayRoundingTies`).
- **No scale invariance.** The triangle is not scale-invariant:
  - the padding (40 px), the right-angle tick (15 px) and the arc radius (30 px) are fixed;
  - only the canvas width scales the legs (`Geometry.TriangleIgnoresHeight`, `Geometry.ApexOnCanvasIff`).
- **Triangle layout.** The triangle is not centred and its margins do not scale with it. The right angle is anchored at (40, H − 40), and the legs have length (W − 80)·cos θ and (W − 80)·sin θ.
- **The angle arcs point the wrong way.** Both diagrams call `arc(…, 0, θ, false)`. On a canvas, whose y axis grows downward, that sweeps clockwise, so for 0° < θ < 180° the painted arc ends below the baseline. The triangle's apex, the circle's point and the θ label are above it (`Geometry.TriangleArcMirrorsTheta`, `Geometry.CircleArcMirrorsPoint`).
- **θ is marked at the wrong vertex.** The θ mark and its arc sit at B, the right angle. The side labelled "depan" (AB) has length sin θ·(W − 80) and "samping" (BC) has length cos θ·(W − 80), so the angle they describe is the one at C (`Geometry.ThetaIsAtC`).
- **A resize can blank the unit circle.** The resize listener refits the circle canvas, which clears it, and redraws only when an angle button is active. After the calculator has drawn an angle on the special-angles page, no button is active, so a resize leaves the circle blank. A revisit keeps the drawing (`App.CalculatedCircleBlankedByResize`, `App.ResizeBlanksUndrawnCircle`).
- **Which `initializeVisualizations` runs.** components.js declares `initializeVisualizations` twice (lines 327 and 389). The later declaration, which resizes the canvases first, is the one every caller gets, so it is the one modelled.

## Model

| member | source | states |
|---|---|---|
| `JsArith.Rem` | components.js:17-23 | JavaScript `a % b` for b > 0: the result has the dividend's sign, its magnitude is below b, and a − r is a whole multiple of b |
| `JsArith.Round` | components.js:45 | `Math.round(y)` is an integer in the window (y − 1/2, y + 1/2] |
| `JsArith.RoundUnique` | components.js:45 | that integer is the only one in the window, so a tie goes to the upper neighbour |
| `JsArith.Min` | components.js:373 | `Math.min` is at most both arguments and equals one of them |
| `JsArith.Max` | script.js:145 | `Math.max` is at least both arguments and equals one of them |
| `JsArith.Trunc` | script.js:169 | `parseInt` of a decimal numeral truncates toward zero: the result lies within one of x, on the same side of zero |
| `AngleMath.DegToRad` | components.js:4-6 | radians·180 = degrees·pi, so 180° converts to pi, and the sign of the angle is kept |
| `AngleMath.RadToDeg` | components.js:8-10 | degrees·pi = radians·180, so pi converts to 180°, and the sign is kept |
| `AngleMath.DegRadRoundTrip` | components.js:4-10 | the two conversions are inverse to each other in both orders |
| `AngleMath.RoundNumber` | components.js:44-45 | the result has at most three decimals and lies in (v − 0.0005, v + 0.0005] |
| `AngleMath.RoundIsNearestGridPoint` | components.js:44-45 | any three-decimal value in that window is the result, which pins the rounding down independently of `Math.round` |
| `AngleMath.RoundIdempotent` | components.js:42-46 | rounding a rounded value changes nothing |
| `AngleMath.RoundHalfUp` | components.js:45 | a value halfway between two three-decimal values rounds to the upper one, for either sign |
| `AngleMath.DisplayRoundingTies` | components.js:45 | 0.0005 becomes 0.001, -0.0005 becomes 0, and -1.2345 becomes -1.234 |
| `AngleMath.RoundValue` | components.js:42-46 | non-numbers and infinities are returned unchanged; finite numbers come back rounded to three decimals |
| `Trig.TanUndefinedIff` | components.js:17-23 | `a % 90 === 0 && a % 180 === 90` holds exactly for the whole numbers 90, 270, 450, … |
| `Trig.RightAngleMultipleIsWhole` | components.js:17 | `a % 90 === 0` holds exactly for whole multiples of 90 (negatives included), so fractional angles take the general branch |
| `Trig.QuarterTurnSign` | components.js:23 | among 90, 270, 450, …, `a % 360 === 90` selects exactly 90, 450, 810, … |
| `Trig.SpecialTangent` | components.js:20-26 | in the special branch the tangent is +Infinity for 90, 450, …, -Infinity for 270, 630, …, and otherwise `Math.tan`'s value |
| `Trig.CalculateTrigValues` | components.js:13-40 | sine and cosine are always rounded numbers; the tangent is the "∞" string exactly for 90, 270, 450, … and otherwise the rounded tangent |
| `Trig.InfinitiesCollapse` | components.js:22-31 | 90° and 270° give opposite infinities and both display as the same "∞"; 450° behaves like 90° |
| `Trig.NegativeOddRightAnglesShowNumbers` | components.js:17-26 | -90°, -270°, 0° and 180° show a numeric tangent |
| `Trig.WorkedExampleZero` | components.js:13-40 | 0° with samples (0, 1, 0) displays (0, 1, 0) |
| `Trig.WorkedExampleThirty` | components.js:35-39 | 30° with the double-precision samples displays (0.5, 0.866, 0.577) |
| `Trig.WorkedExampleFortyFive` | components.js:35-39 | 45° with the double-precision samples displays (0.707, 0.707, 1) |
| `Trig.WorkedExampleNinety` | components.js:17-32 | 90° with the double-precision samples (whose tangent is a huge finite number) displays (1, 0, "∞") |
| `Trig.UpdateCalculatorDisplay` | components.js:282-299 | the three main fields show the computed values; the circle readouts are rewritten (coordinates as (cos, sin)) only when all three exist, and are otherwise left as they were |
| `Trig.UpdateIdempotent` | components.js:282-299 | showing an angle twice equals showing it once; when the circle readouts exist, the result also does not depend on what was shown before |
| `Geometry.TriangleGeometry` | components.js:62-169 | the right angle sits at B = (40, H − 40); C lies on B's row and A on B's column; the legs are cos and sin times W − 80; the tick, labels, arc and caption sit at their fixed offsets from the vertices |
| `Geometry.DrawTriangle` | components.js:57-59 | a missing canvas draws nothing; otherwise the scene is the triangle geometry for the canvas size |
| `Geometry.TriangleRightAngleAtB` | components.js:73-85 | BA ⟂ BC, and for a direction on the unit circle the hypotenuse AC has length W − 80 |
| `Geometry.ThetaLabelOnCircleAroundB` | components.js:150-156 | the θ label, lowered 5 px, lies on the radius-30 circle around B, on the half-angle ray measured upward |
| `Geometry.TriangleArcMirrorsTheta` | components.js:143-156 | for sin θ > 0 on a canvas wider than 80 px, the painted arc ends below B's row while the apex A and the θ label are above it |
| `Geometry.ThetaIsAtC` | components.js:73-85 | the legs satisfy AB·cos θ = BC·sin θ: "depan" over "samping" is tan θ, the angle at C |
| `Geometry.TriangleIgnoresHeight` | components.js:62-85 | two canvases of equal width give the same scene shifted down by the height difference |
| `Geometry.ApexOnCanvasIff` | components.js:73-85 | the apex is not cut off at the top iff sin·(W − 80) ≤ H − 40, and its row lies on the canvas (0 ≤ y ≤ H) iff −40 ≤ sin·(W − 80) ≤ H − 40; on 400 × 300 these are sin ≤ 0.8125 and −0.125 ≤ sin ≤ 0.8125 |
| `Geometry.CircleFrame` | components.js:180-209 | centre (W/2, H/2) and radius min(W/2, H/2) − 20; the point is offset from the centre by r·cos to the right and by r·sin upward |
| `Geometry.AngleCaptionOnHalfAngleRay` | components.js:267-269 | for a unit half-angle direction, the angle caption is exactly 1.2 arc radii from the centre |
| `Geometry.CircleGeometry` | components.js:178-278 | the scene's circle and point are the frame's; the axes overhang the circle by 10; the arc has radius 0.3r; the overlay runs point, foot on the x axis, centre; the readout holds the rounded cos and sin 15 px above the point; the five axis labels sit at fixed offsets from the axis ends and the centre |
| `Geometry.CircleArcMirrorsPoint` | components.js:204-227 | with a positive radius and sin θ > 0, the point is above the centre while the painted arc ends below the x axis |
| `Geometry.DrawUnitCircle` | components.js:173-175 | a missing canvas draws nothing; otherwise the scene is the circle geometry for the canvas size |
| `Geometry.PointOnCircle` | components.js:180-209 | for a direction on the unit circle, the drawn point lies exactly one radius from the centre |
| `Geometry.PointAboveCentreIffSinePositive` | components.js:208-209 | with a positive radius, the point is above the centre iff sin > 0 and below it iff sin < 0 |
| `Geometry.CircleFitsCanvas` | components.js:180-202 | the radius is non-negative iff both sides are at least 40 px, and then both axes lie inside the canvas |
| `Geometry.CoordinatesMatchCalculator` | components.js:258-262 | the coordinate readout equals the calculator's rounded cosine and sine for the same angle |
| `Geometry.ZeroDegreesOnSquareCanvas` | components.js:180-209 | 0° on 350 × 350 gives centre (175, 175), radius 155 and point (330, 175) |
| `CanvasSizing.FittedSize` | components.js:370-385 | the triangle canvas is min(available, 400) wide with a 4:3 aspect; the circle canvas is a square of side min(available, 350); other ids keep their size |
| `CanvasSizing.ResizeCanvasToContainer` | components.js:354-386 | a missing canvas or parent changes nothing; otherwise only that canvas's size changes, to the fitted size for its parent's content width |
| `CanvasSizing.ResizeIdempotent` | components.js:354-386 | resizing twice equals resizing once |
| `CanvasSizing.ResizeIgnoresVerticalLayout` | components.js:362-368 | the parent's client height and vertical padding never affect the result |
| `CanvasSizing.FittedCanvasesAndDiagrams` | components.js:371-385 | a container at least 400 wide gives a 400 × 300 triangle canvas; the circle on its fitted canvas has radius side/2 − 20, at most 155, and non-negative from side 40 |
| `App.FindPage` | script.js:14 | finds the first page with the id, or reports that none has it |
| `App.ActivatePage` | script.js:9-16 | a page ends up active iff it is the first page carrying the id; ids are kept |
| `App.UpdateActiveNav` | script.js:39-62 | in each of the three button groups a button is active iff its page is the id; nothing else changes |
| `App.FirstActiveAngle` | script.js:78-80 | the angle of the first active angle button, present iff some button is active |
| `App.PageVisualizations` | script.js:65-89 | the comparison page redraws the triangle at the slider's whole-degree value; the special-angles page redraws the circle and the display at the active button's angle; otherwise, or without a slider or active button, nothing happens |
| `App.ShowPage` | script.js:7-31 | only the first page with the id is active; a found page becomes current, is written to the hash and scrolls to the top, while an unknown id keeps the current page and hash; the nav highlight and the redraws happen either way |
| `App.ShowPageLeavesOneActivePage` | script.js:9-18 | afterwards every active page carries the id, no two pages are active, and some page is active iff a page with the id exists |
| `App.ShowPageIdempotent` | script.js:7-31 | showing a page twice leaves the same document as showing it once |
| `App.LoadTarget` | script.js:196-203 | the routed page is always one of the six valid pages: the fragment when it names one, else "beranda" |
| `App.ReloadReturnsToPage` | script.js:20 | for a valid, existing page, routing the hash that `showPage` wrote leads back to the same page |
| `App.OnLoad` | script.js:195-215 | load shows the routed page, then issues the initial resize and draw requests |
| `App.ShownWithoutPaint` | components.js:375-382 | requests that neither draw on a target nor refit its canvas leave it showing what it showed before |
| `App.ShownIsLastPaint` | components.js:375-382 | the last request that draws on a target or refits its canvas decides what it shows: the drawn angle, or a blank canvas after a refit |
| `App.ShownAppend` | components.js:375-382 | what a target shows after two batches of requests is what the second batch leaves, starting from what the first left |
| `App.LoadEndsWithInitialAngles` | components.js:389-401 | after load the triangle was last drawn at 30°, the circle at 0° and the display at 30°, and they show those angles, whatever the route redrew and whatever was shown before |
| `App.ClampToSlider` | script.js:145 | the slider value lies in [1, 89], equals the angle inside that range, and is the nearer end outside it |
| `App.ClampIdempotent` | script.js:145 | clamping a clamped value changes nothing |
| `App.Calculate` | script.js:137-159 | NaN does nothing; a number always updates the display; on the comparison page with a slider it also moves the slider and redraws the triangle at the clamped angle; on the special-angles page it redraws the circle at the raw angle and deactivates every angle button; button count and angles are kept; pages, hash and navigation are untouched |
| `App.CalculatedCircleSurvivesRevisit` | script.js:152-158 | after the calculator on the special-angles page no angle button is active, so neither a revisit nor a resize issues a circle draw |
| `App.CalculatedCircleBlankedByResize` | script.js:152-158 | the calculator's angle on the special-angles page is still shown after a revisit, but a window resize leaves the circle blank |
| `App.CalculatorKeepsSliderInRange` | script.js:142-148 | on the comparison page the slider ends in [1, 89] and the triangle's last redraw is at the slider's value |
| `App.SliderInput` | script.js:166-174 | with a slider, its new value is stored and the triangle and display are redrawn at its whole-degree part; without one, nothing happens |
| `App.SliderAngleSurvivesRevisit` | script.js:168-171 | revisiting the comparison page redraws the triangle at the angle the slider event drew |
| `App.ClickAngleButton` | script.js:177-191 | exactly the clicked button is active and angles are kept; the circle and display are redrawn at its angle; nothing else changes |
| `App.ClickedAngleSurvivesRevisit` | script.js:180-190 | after a click, the first active button is the clicked one, so revisiting the page redraws exactly what the click drew |
| `App.OnWindowResize` | components.js:404-419 | the state is unchanged; other pages issue nothing; the comparison page refits and redraws the triangle; the special-angles page refits the circle canvas and then issues exactly the circle draw a revisit would issue, without the display's |
| `App.ResizeRedrawsLikeRevisit` | components.js:413-418 | on the special-angles page, a resize issues the same last circle draw as a revisit; with an active angle button, the circle shows that button's angle after either |
| `App.ResizeBlanksUndrawnCircle` | components.js:413-418 | on the special-angles page with no active angle button, a resize leaves the circle blank while a revisit leaves it as it was |

## Left out

- Painting: colours, fonts, line widths, `clearRect`, `fill`/`stroke`, and the label rotations (the rotation of "miring" uses `Math.atan2`). The diagrams are modelled as the positions they paint at.
- `Math.sin`, `Math.cos`, `Math.tan` and `Math.PI`: these are host floating-point functions. Their results are inputs to the model. Arithmetic is over exact reals, with no double-precision rounding.
- `AngleMath.RoundValue`: the `decimals` argument is fixed at its default of 3, because no caller passes another value.
- `App.Calculate`: the parsed angle is a finite real. `parseFloat("Infinity")` gives +∞, which passes the `isNaN` test; the source would then set the slider to 89, show "NaN" values in the display and ask the circle to draw at +∞. That path is not modelled.
- NaN is not represented. The calculator's `isNaN` test is modelled as `parseFloat` returning `None`.
- Number-to-string formatting: the `textContent` writes, the template-literal captions and the coordinate text. A caption holds the angle or value it would format.
- Browser coercions:
  - `canvas.width` and `canvas.height` are stored as integers by the browser;
  - a range input snaps the calculator's write to its step;
  - `drawTriangle` receives `slider.value` as a string at script.js:147;
  - `parseFloat` on the paddings.
  The model keeps the exact numbers.
- `Trig.UpdateCalculatorDisplay`, `App.Calculate` and `App.SliderInput`: the document is assumed to hold the elements these read without a null check (the display's `sinValue`/`cosValue`/`tanValue`, and `angleValue`). When one is missing, the source throws, and that path is not modelled.
- `getElementById` returning an element that is not a `.page` is not modelled: the model looks an id up among the pages only. On the real page, `showPage` with the id of another element (a canvas, say) would mark that element active and make its id the current page and hash.
- The exception `arc` raises for a negative radius, on circle canvases under 40 px, is not modelled. `Geometry.CircleFitsCanvas` states where the radius becomes negative.
- Event wiring itself (`addEventListener`, `DOMContentLoaded`) and the mobile menu toggle (script.js:121-129, 105-109). These only show or hide a menu.
- AOS and MathJax initialisation and re-typesetting (script.js:205-220, 228-236). These are third-party libraries.
- The startup code after script.js:223. `wwindow` there is a ReferenceError, so the following never take effect:
  - the listeners at script.js:228-254;
  - `initializeFooter` (script.js:258-277);
  - `initializeApp`'s fallback `showPage('beranda')` (script.js:284-287).
  The `load` listener is registered before line 223 and is modelled.
- The first `initializeVisualizations` (components.js:327-337). The later declaration replaces it.
- `createMathFormula` and `createCard`: these only build HTML markup. `hideAllPages` is the deactivation step that `App.ShowPage` already performs.
- `window.scrollTo` is recorded only as a `ScrollToTop` request. `canvas.style` sizes repeat the numeric sizes as strings.
