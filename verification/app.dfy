/** The page state machine of script.js together with the event handlers
    that tie it to the diagrams in components.js: `showPage`,
    `updateActiveNav`, `updatePageVisualizations`, routing on `load`, the
    calculator button, the triangle slider, the unit-circle angle buttons,
    `initializeVisualizations` and the window-resize listener.

    The document is an `AppState`; every handler maps a state to a `Step`,
    the new state plus the drawing requests it issues, in order. What a
    drawing request paints is modelled by `Geometry`, `Trig` and
    `CanvasSizing`. */
module App {
  import opened JsArith
  import opened Wrappers
  import opened CanvasSizing

  /** A `.page` section; the one with class `active` is visible. */
  datatype Page = Page(id: string, active: bool)
  /** A `.nav-btn`, `.mobile-nav-btn` or `.sidebar-btn` with its `data-page`. */
  datatype NavButton = NavButton(page: string, active: bool)
  /** A `.angle-btn` with its `data-angle` already read by `parseInt`. */
  datatype AngleButton = AngleButton(angle: int, active: bool)

  datatype AppState = AppState(
    pages: seq<Page>,
    currentPage: string,
    hash: string,
    nav: seq<NavButton>,
    mobileNav: seq<NavButton>,
    sidebar: seq<NavButton>,
    angleButtons: seq<AngleButton>,
    slider: Option<real>)     // the `#angleSlider` element's value, if the element exists

  /** The three things that can be drawn at an angle. */
  datatype Target = Triangle | UnitCircle | CalculatorDisplay

  /** A drawing request. `ResizeCanvas` refits a canvas to its container;
      because it assigns `canvas.width` and `canvas.height`, it also blanks
      that canvas (see `Shown`). */
  datatype Effect =
    | Draw(target: Target, angleDeg: real)
    | ResizeCanvas(canvasId: string)
    | ScrollToTop

  datatype Step = Step(state: AppState, effects: seq<Effect>)

  const Home: string := "beranda"
  const Comparison: string := "perbandingan"
  const SpecialAngles: string := "sudut-istimewa"

  /** The pages the load handler accepts from the URL fragment. */
  const ValidPages: seq<string> := ["beranda", "perbandingan", "identitas", "sudut-istimewa", "aturan", "contoh-soal"]

  /** The angles `initializeVisualizations` starts with. */
  const InitialTriangleAngle: real := 30.0
  const InitialCircleAngle: real := 0.0

  predicate PageExists(pages: seq<Page>, id: string) {
    exists i :: 0 <= i < |pages| && pages[i].id == id
  }

  /** `document.getElementById`: the first page carrying the id. */
  function FindPage(pages: seq<Page>, id: string): (r: Option<nat>)
    ensures r.Some? ==> r.value < |pages| && pages[r.value].id == id
                        && forall j :: 0 <= j < r.value ==> pages[j].id != id
    ensures r.None? <==> !PageExists(pages, id)
  {
    if |pages| == 0 then None
    else if pages[0].id == id then Some(0)
    else
      match FindPage(pages[1..], id)
      case None => None
      case Some(k) => Some(k + 1)
  }

  /** The page that `getElementById(id)` finds is the only one left active. */
  function ActivatePage(pages: seq<Page>, id: string): (r: seq<Page>)
    ensures |r| == |pages|
    ensures forall i :: 0 <= i < |pages| ==> r[i].id == pages[i].id
    ensures forall i :: 0 <= i < |pages| ==>
              (r[i].active <==> pages[i].id == id && forall j :: 0 <= j < i ==> pages[j].id != id)
  {
    var target := FindPage(pages, id);
    seq(|pages|, i requires 0 <= i < |pages| => pages[i].(active := target == Some(i)))
  }

  /** `buttons` is `before` with exactly the buttons for page `id` active. */
  predicate Highlights(buttons: seq<NavButton>, before: seq<NavButton>, id: string) {
    |buttons| == |before|
    && forall i :: 0 <= i < |before| ==>
         buttons[i].page == before[i].page && (buttons[i].active <==> before[i].page == id)
  }

  function Highlight(buttons: seq<NavButton>, id: string): (r: seq<NavButton>)
    ensures Highlights(r, buttons, id)
  {
    seq(|buttons|, i requires 0 <= i < |buttons| => buttons[i].(active := buttons[i].page == id))
  }

  /** `updateActiveNav`: in each of the three button groups, whether or not a
      page with that id exists. */
  function UpdateActiveNav(s: AppState, id: string): (r: AppState)
    ensures Highlights(r.nav, s.nav, id)
    ensures Highlights(r.mobileNav, s.mobileNav, id)
    ensures Highlights(r.sidebar, s.sidebar, id)
    ensures r.(nav := s.nav, mobileNav := s.mobileNav, sidebar := s.sidebar) == s
  {
    s.(nav := Highlight(s.nav, id), mobileNav := Highlight(s.mobileNav, id), sidebar := Highlight(s.sidebar, id))
  }

  /** `document.querySelector('.angle-btn.active')`, read through `parseInt`. */
  function FirstActiveAngle(buttons: seq<AngleButton>): (r: Option<int>)
    ensures r.Some? <==> exists i :: 0 <= i < |buttons| && buttons[i].active
    ensures r.Some? ==> exists i :: 0 <= i < |buttons| && buttons[i].active && buttons[i].angle == r.value
                                    && forall j :: 0 <= j < i ==> !buttons[j].active
  {
    if |buttons| == 0 then None
    else if buttons[0].active then Some(buttons[0].angle)
    else
      var rest := FirstActiveAngle(buttons[1..]);
      assert forall i :: 1 <= i < |buttons| ==> buttons[i] == buttons[1..][i - 1];
      rest
  }

  /** `updatePageVisualizations`: the comparison page redraws the triangle
      at the slider's whole-degree value, the special-angles page redraws
      the circle and the display at the active angle button, and every other
      page (or a missing slider or active button) does nothing. */
  function PageVisualizations(s: AppState, id: string): (r: seq<Effect>)
    ensures id != Comparison && id != SpecialAngles ==> r == []
    ensures id == Comparison ==>
              (s.slider.None? ==> r == []) && (s.slider.Some? ==> r == [Draw(Triangle, Trunc(s.slider.value) as real)])
    ensures id == SpecialAngles ==>
              match FirstActiveAngle(s.angleButtons)
              case None => r == []
              case Some(a) => r == [Draw(UnitCircle, a as real), Draw(CalculatorDisplay, a as real)]
  {
    if id == Comparison then
      match s.slider
      case None => []
      case Some(v) => [Draw(Triangle, Trunc(v) as real)]
    else if id == SpecialAngles then
      match FirstActiveAngle(s.angleButtons)
      case None => []
      case Some(a) => [Draw(UnitCircle, a as real), Draw(CalculatorDisplay, a as real)]
    else []
  }

  /** `showPage(id)`. Every page is deactivated and the one found (if any)
      activated; only a found page becomes the current page, is written to
      the URL fragment and scrolls the window to the top. The navigation
      highlight and the page's diagrams are updated either way. */
  function ShowPage(s: AppState, id: string): (r: Step)
    ensures |r.state.pages| == |s.pages|
    ensures forall i :: 0 <= i < |s.pages| ==> r.state.pages[i].id == s.pages[i].id
    ensures forall i :: 0 <= i < |s.pages| ==>
              (r.state.pages[i].active <==> s.pages[i].id == id && forall j :: 0 <= j < i ==> s.pages[j].id != id)
    ensures PageExists(s.pages, id) ==> r.state.currentPage == id && r.state.hash == "#" + id
    ensures !PageExists(s.pages, id) ==> r.state.currentPage == s.currentPage && r.state.hash == s.hash
    ensures Highlights(r.state.nav, s.nav, id)
    ensures Highlights(r.state.mobileNav, s.mobileNav, id)
    ensures Highlights(r.state.sidebar, s.sidebar, id)
    ensures r.state.angleButtons == s.angleButtons && r.state.slider == s.slider
    ensures r.effects == (if PageExists(s.pages, id) then [ScrollToTop] else []) + PageVisualizations(s, id)
  {
    var found := FindPage(s.pages, id);
    var s1 := s.(pages := ActivatePage(s.pages, id));
    var s2 := if found.Some? then s1.(currentPage := id, hash := "#" + id) else s1;
    var s3 := UpdateActiveNav(s2, id);
    Step(s3, (if found.Some? then [ScrollToTop] else []) + PageVisualizations(s3, id))
  }

  /** After `showPage(id)` at most one page is active and it carries `id`;
      exactly one is when such a page exists, none otherwise. */
  lemma ShowPageLeavesOneActivePage(s: AppState, id: string)
    ensures var p := ShowPage(s, id).state.pages;
            (forall i :: 0 <= i < |p| && p[i].active ==> p[i].id == id)
            && (forall i, j :: 0 <= i < |p| && 0 <= j < |p| && p[i].active && p[j].active ==> i == j)
            && ((exists i :: 0 <= i < |p| && p[i].active) <==> PageExists(s.pages, id))
  {
    var p := ShowPage(s, id).state.pages;
    forall i, j | 0 <= i < |p| && 0 <= j < |p| && p[i].active && p[j].active
      ensures i == j
    {
    }
    if PageExists(s.pages, id) {
      var k := FindPage(s.pages, id).value;
      assert p[k].active;
    }
  }

  /** Showing the same page twice leaves the document as showing it once. */
  lemma ShowPageIdempotent(s: AppState, id: string)
    ensures ShowPage(ShowPage(s, id).state, id).state == ShowPage(s, id).state
  {
    var t := ShowPage(s, id).state;
    var u := ShowPage(t, id).state;
    ActivatePageIdempotent(s.pages, id);
    HighlightIdempotent(s.nav, t.nav, id);
    HighlightIdempotent(s.mobileNav, t.mobileNav, id);
    HighlightIdempotent(s.sidebar, t.sidebar, id);
    HighlightIdempotent(t.nav, u.nav, id);
    HighlightIdempotent(t.mobileNav, u.mobileNav, id);
    HighlightIdempotent(t.sidebar, u.sidebar, id);
  }

  /** Re-activating a page changes nothing, and the page still exists. */
  lemma ActivatePageIdempotent(pages: seq<Page>, id: string)
    ensures ActivatePage(ActivatePage(pages, id), id) == ActivatePage(pages, id)
    ensures PageExists(ActivatePage(pages, id), id) <==> PageExists(pages, id)
  {
    var p := ActivatePage(pages, id);
    if PageExists(pages, id) {
      var k :| 0 <= k < |pages| && pages[k].id == id;
      assert p[k].id == id;
    }
  }

  /** Two highlights of the same buttons for the same page agree. */
  lemma HighlightIdempotent(a: seq<NavButton>, b: seq<NavButton>, id: string)
    requires Highlights(b, a, id)
    ensures Highlights(b, b, id)
    ensures forall c :: Highlights(c, a, id) ==> c == b
  {
    forall c | Highlights(c, a, id)
      ensures c == b
    {
      assert forall i :: 0 <= i < |c| ==> c[i] == b[i];
    }
  }

  /** The page the `load` handler shows for a URL fragment `hash` (as
      `location.hash` reports it, with its leading `#`). */
  function LoadTarget(hash: string): (p: string)
    ensures p in ValidPages
    ensures |hash| >= 1 && hash[1..] in ValidPages ==> p == hash[1..]
    ensures (|hash| == 0 || hash[1..] !in ValidPages) ==> p == Home
  {
    var fragment := if |hash| == 0 then "" else hash[1..];
    if fragment != "" && fragment in ValidPages then fragment else Home
  }

  /** Reloading returns to the page that was showing: `showPage` writes a
      fragment the load handler maps back to the same page. */
  lemma ReloadReturnsToPage(s: AppState, id: string)
    requires id in ValidPages && PageExists(s.pages, id)
    ensures LoadTarget(ShowPage(s, id).state.hash) == id
  {
    assert ("#" + id)[1..] == id;
  }

  /** The last angle the effects draw on `target`, if they draw on it. */
  function LastDrawn(effects: seq<Effect>, target: Target): (r: Option<real>)
    ensures r.Some? ==> exists i :: 0 <= i < |effects| && effects[i] == Draw(target, r.value)
                          && forall j :: i < j < |effects| ==> !(effects[j].Draw? && effects[j].target == target)
    ensures r.None? ==> forall i :: 0 <= i < |effects| ==> !(effects[i].Draw? && effects[i].target == target)
  {
    if |effects| == 0 then None
    else
      var e := effects[|effects| - 1];
      if e.Draw? && e.target == target then Some(e.angleDeg)
      else
        var r := LastDrawn(effects[..|effects| - 1], target);
        assert forall i :: 0 <= i < |effects| - 1 ==> effects[..|effects| - 1][i] == effects[i];
        r
  }

  /** What was drawn last on a target is decided by the later effects
      whenever they draw on it. */
  lemma {:induction false} LastDrawnAppend(a: seq<Effect>, b: seq<Effect>, target: Target)
    ensures LastDrawn(a + b, target) == (if LastDrawn(b, target).Some? then LastDrawn(b, target) else LastDrawn(a, target))
    decreases |b|
  {
    if |b| == 0 {
      assert a + b == a;
    } else {
      var n := |a + b|;
      assert (a + b)[n - 1] == b[|b| - 1];
      assert (a + b)[..n - 1] == a + b[..|b| - 1];
      LastDrawnAppend(a, b[..|b| - 1], target);
    }
  }

  /** The canvas a target is painted on; the calculator display has none. */
  function CanvasOf(target: Target): Option<string> {
    match target
    case Triangle => Some(TriangleCanvasId)
    case UnitCircle => Some(UnitCircleCanvasId)
    case CalculatorDisplay => None
  }

  /** The effect changes what `target` shows: it draws on it, or refits the
      canvas it is painted on. */
  predicate Paints(e: Effect, target: Target) {
    (e.Draw? && e.target == target) || (e.ResizeCanvas? && CanvasOf(target) == Some(e.canvasId))
  }

  /** What a painting effect leaves on the target: the drawn angle, or a
      blank canvas (`None`) after a refit. */
  function PaintResult(e: Effect): Option<real> {
    if e.Draw? then Some(e.angleDeg) else None
  }

  /** What `target` shows after the effects, starting from `before` (`None`
      is a blank canvas). Drawing paints the angle; refitting the target's
      canvas blanks it, because assigning `canvas.width` or `canvas.height`
      resets the bitmap even when the size is unchanged. */
  function Shown(before: Option<real>, effects: seq<Effect>, target: Target): Option<real> {
    if |effects| == 0 then before
    else
      var e := effects[|effects| - 1];
      if Paints(e, target) then PaintResult(e) else Shown(before, effects[..|effects| - 1], target)
  }

  /** Effects that never paint the target leave it showing what it showed. */
  lemma {:induction false} ShownWithoutPaint(before: Option<real>, effects: seq<Effect>, target: Target)
    requires forall i :: 0 <= i < |effects| ==> !Paints(effects[i], target)
    ensures Shown(before, effects, target) == before
    decreases |effects|
  {
    if |effects| > 0 {
      var p := effects[..|effects| - 1];
      assert forall i :: 0 <= i < |p| ==> p[i] == effects[i];
      ShownWithoutPaint(before, p, target);
    }
  }

  /** The last effect that paints the target decides what it shows. */
  lemma {:induction false} ShownIsLastPaint(before: Option<real>, effects: seq<Effect>, target: Target, i: nat)
    requires i < |effects| && Paints(effects[i], target)
    requires forall j :: i < j < |effects| ==> !Paints(effects[j], target)
    ensures Shown(before, effects, target) == PaintResult(effects[i])
    decreases |effects|
  {
    if i < |effects| - 1 {
      var p := effects[..|effects| - 1];
      assert forall j :: 0 <= j < |p| ==> p[j] == effects[j];
      ShownIsLastPaint(before, p, target, i);
    }
  }

  /** Showing is sequential: the later effects start from what the earlier
      ones left. */
  lemma {:induction false} ShownAppend(before: Option<real>, a: seq<Effect>, b: seq<Effect>, target: Target)
    ensures Shown(before, a + b, target) == Shown(Shown(before, a, target), b, target)
    decreases |b|
  {
    if |b| == 0 {
      assert a + b == a;
    } else {
      var n := |a + b|;
      assert (a + b)[n - 1] == b[|b| - 1];
      assert (a + b)[..n - 1] == a + b[..|b| - 1];
      ShownAppend(before, a, b[..|b| - 1], target);
    }
  }

  /** `initializeVisualizations`: size and draw both diagrams and fill the
      calculator display. */
  const InitialVisualizations: seq<Effect> := [
    ResizeCanvas(TriangleCanvasId), Draw(Triangle, InitialTriangleAngle),
    ResizeCanvas(UnitCircleCanvasId), Draw(UnitCircle, InitialCircleAngle),
    Draw(CalculatorDisplay, InitialTriangleAngle)]

  /** The `load` handler: route on the URL fragment, then initialise the
      diagrams. */
  function OnLoad(s: AppState): (r: Step)
    ensures var p := LoadTarget(s.hash);
            p in ValidPages
            && (PageExists(s.pages, p) ==> r.state.currentPage == p && r.state.hash == "#" + p)
            && r.state == ShowPage(s, p).state
    ensures r.effects == ShowPage(s, LoadTarget(s.hash)).effects + InitialVisualizations
  {
    var shown := ShowPage(s, LoadTarget(s.hash));
    Step(shown.state, shown.effects + InitialVisualizations)
  }

  /** Whatever page the fragment selects and whatever angle button or slider
      value the page's own redraw used, after loading the triangle shows 30
      degrees, the circle 0 degrees and the calculator display 30 degrees. */
  lemma LoadEndsWithInitialAngles(s: AppState, before: Option<real>)
    ensures LastDrawn(OnLoad(s).effects, Triangle) == Some(InitialTriangleAngle)
    ensures LastDrawn(OnLoad(s).effects, UnitCircle) == Some(InitialCircleAngle)
    ensures LastDrawn(OnLoad(s).effects, CalculatorDisplay) == Some(InitialTriangleAngle)
    ensures Shown(before, OnLoad(s).effects, Triangle) == Some(InitialTriangleAngle)
    ensures Shown(before, OnLoad(s).effects, UnitCircle) == Some(InitialCircleAngle)
    ensures Shown(before, OnLoad(s).effects, CalculatorDisplay) == Some(InitialTriangleAngle)
  {
    var a := ShowPage(s, LoadTarget(s.hash)).effects;
    InitialVisualizationsDraw();
    LastDrawnAppend(a, InitialVisualizations, Triangle);
    LastDrawnAppend(a, InitialVisualizations, UnitCircle);
    LastDrawnAppend(a, InitialVisualizations, CalculatorDisplay);
    InitialVisualizationsShow(Shown(before, a, Triangle), Shown(before, a, UnitCircle), Shown(before, a, CalculatorDisplay));
    ShownAppend(before, a, InitialVisualizations, Triangle);
    ShownAppend(before, a, InitialVisualizations, UnitCircle);
    ShownAppend(before, a, InitialVisualizations, CalculatorDisplay);
  }

  lemma InitialVisualizationsDraw()
    ensures LastDrawn(InitialVisualizations, Triangle) == Some(InitialTriangleAngle)
    ensures LastDrawn(InitialVisualizations, UnitCircle) == Some(InitialCircleAngle)
    ensures LastDrawn(InitialVisualizations, CalculatorDisplay) == Some(InitialTriangleAngle)
  {
    var b := InitialVisualizations;
    assert b[..4][..3] == b[..3];
    assert b[..3][..2] == b[..2];
    assert LastDrawn(b[..2], Triangle) == Some(InitialTriangleAngle);
    assert LastDrawn(b[..3], Triangle) == Some(InitialTriangleAngle);
    assert LastDrawn(b[..4], Triangle) == Some(InitialTriangleAngle);
    assert LastDrawn(b[..4], UnitCircle) == Some(InitialCircleAngle);
  }

  lemma InitialVisualizationsShow(t: Option<real>, c: Option<real>, d: Option<real>)
    ensures Shown(t, InitialVisualizations, Triangle) == Some(InitialTriangleAngle)
    ensures Shown(c, InitialVisualizations, UnitCircle) == Some(InitialCircleAngle)
    ensures Shown(d, InitialVisualizations, CalculatorDisplay) == Some(InitialTriangleAngle)
  {
    var b := InitialVisualizations;
    assert b[..4][..3] == b[..3];
    assert b[..3][..2] == b[..2];
    assert Shown(t, b[..2], Triangle) == Some(InitialTriangleAngle);
    assert Shown(t, b[..3], Triangle) == Some(InitialTriangleAngle);
    assert Shown(t, b[..4], Triangle) == Some(InitialTriangleAngle);
    assert Shown(c, b[..4], UnitCircle) == Some(InitialCircleAngle);
  }

  /** The calculator's write to the triangle slider: `Math.min(Math.max(angle, 1), 89)`. */
  function ClampToSlider(angle: real): (r: real)
    ensures 1.0 <= r <= 89.0
    ensures 1.0 <= angle <= 89.0 ==> r == angle
    ensures angle < 1.0 ==> r == 1.0
    ensures angle > 89.0 ==> r == 89.0
  {
    Min(Max(angle, 1.0), 89.0)
  }

  /** A slider value already written by the calculator stays put. */
  lemma ClampIdempotent(angle: real)
    ensures ClampToSlider(ClampToSlider(angle)) == ClampToSlider(angle)
  {
  }

  function ClearAngleButtons(buttons: seq<AngleButton>): (r: seq<AngleButton>)
    ensures |r| == |buttons|
    ensures forall i :: 0 <= i < |buttons| ==> r[i].angle == buttons[i].angle && !r[i].active
  {
    seq(|buttons|, i requires 0 <= i < |buttons| => buttons[i].(active := false))
  }

  /** The calculator button with `parseFloat` of the input already taken
      (`None` for NaN). A number always updates the display; on the
      comparison page it also moves the slider (when there is one) to the
      clamped angle and redraws the triangle there; on the special-angles
      page it redraws the circle at the raw angle and deactivates every
      angle button. */
  function Calculate(s: AppState, parsed: Option<real>): (r: Step)
    ensures parsed.None? ==> r == Step(s, [])
    ensures parsed.Some? ==>
              var a := parsed.value;
              var drawsTriangle := s.currentPage == Comparison && s.slider.Some?;
              var drawsCircle := s.currentPage == SpecialAngles;
              r.effects == [Draw(CalculatorDisplay, a)]
                           + (if drawsTriangle then [Draw(Triangle, ClampToSlider(a))] else [])
                           + (if drawsCircle then [Draw(UnitCircle, a)] else [])
              && r.state.slider == (if drawsTriangle then Some(ClampToSlider(a)) else s.slider)
              && |r.state.angleButtons| == |s.angleButtons|
              && (forall i :: 0 <= i < |s.angleButtons| ==> r.state.angleButtons[i].angle == s.angleButtons[i].angle)
              && (drawsCircle ==> forall i :: 0 <= i < |r.state.angleButtons| ==> !r.state.angleButtons[i].active)
              && (!drawsCircle ==> r.state.angleButtons == s.angleButtons)
              && r.state.pages == s.pages && r.state.currentPage == s.currentPage && r.state.hash == s.hash
              && r.state.nav == s.nav && r.state.mobileNav == s.mobileNav && r.state.sidebar == s.sidebar
  {
    match parsed
    case None => Step(s, [])
    case Some(angle) =>
      var drawsTriangle := s.currentPage == Comparison && s.slider.Some?;
      var s1 := if drawsTriangle then s.(slider := Some(ClampToSlider(angle))) else s;
      var drawsCircle := s.currentPage == SpecialAngles;
      var s2 := if drawsCircle then s1.(angleButtons := ClearAngleButtons(s1.angleButtons)) else s1;
      Step(s2, [Draw(CalculatorDisplay, angle)]
               + (if drawsTriangle then [Draw(Triangle, ClampToSlider(angle))] else [])
               + (if drawsCircle then [Draw(UnitCircle, angle)] else []))
  }

  /** After the calculator ran on the special-angles page, no angle button is
      active, so neither returning to the page nor resizing the window issues
      a circle draw. A revisit therefore keeps the calculator's angle, but a
      resize blanks the circle: see `CalculatedCircleBlankedByResize`. */
  lemma CalculatedCircleSurvivesRevisit(s: AppState, angle: real)
    requires s.currentPage == SpecialAngles
    ensures var t := Calculate(s, Some(angle)).state;
            FirstActiveAngle(t.angleButtons).None?
            && PageVisualizations(t, SpecialAngles) == []
            && LastDrawn(OnWindowResize(t).effects, UnitCircle).None?
  {
    var t := Calculate(s, Some(angle)).state;
    assert forall i :: 0 <= i < |t.angleButtons| ==> !t.angleButtons[i].active;
  }

  lemma CalculateOnSpecialAngles(s: AppState, angle: real)
    requires s.currentPage == SpecialAngles
    ensures var c := Calculate(s, Some(angle));
            c.effects == [Draw(CalculatorDisplay, angle), Draw(UnitCircle, angle)]
            && PageVisualizations(c.state, SpecialAngles) == []
            && OnWindowResize(c.state).effects == [ResizeCanvas(UnitCircleCanvasId)]
  {
    CalculatedCircleSurvivesRevisit(s, angle);
  }

  /** The calculator's angle on the special-angles page stays on the circle
      through a revisit, and is wiped by a window resize: the refit blanks
      the canvas and no active button redraws it. */
  lemma CalculatedCircleBlankedByResize(s: AppState, angle: real, before: Option<real>)
    requires s.currentPage == SpecialAngles
    ensures var c := Calculate(s, Some(angle));
            Shown(before, c.effects, UnitCircle) == Some(angle)
            && Shown(before, c.effects + PageVisualizations(c.state, SpecialAngles), UnitCircle) == Some(angle)
            && Shown(before, c.effects + OnWindowResize(c.state).effects, UnitCircle) == None
  {
    var c := Calculate(s, Some(angle));
    CalculateOnSpecialAngles(s, angle);
    var e := c.effects;
    var resize := OnWindowResize(c.state).effects;
    assert Shown(before, e, UnitCircle) == Some(angle);
    assert e + PageVisualizations(c.state, SpecialAngles) == e;
    ShownAppend(before, e, resize, UnitCircle);
  }

  /** On the comparison page the calculator always leaves the slider in
      [1, 89], and the triangle's last redraw is at the slider's new value. */
  lemma CalculatorKeepsSliderInRange(s: AppState, angle: real)
    requires s.currentPage == Comparison && s.slider.Some?
    ensures var t := Calculate(s, Some(angle)).state;
            t.slider.Some? && 1.0 <= t.slider.value <= 89.0
            && LastDrawn(Calculate(s, Some(angle)).effects, Triangle) == t.slider
  {
    var r := Calculate(s, Some(angle));
    assert r.effects == [Draw(CalculatorDisplay, angle), Draw(Triangle, ClampToSlider(angle))];
    assert r.effects[..1] == [Draw(CalculatorDisplay, angle)];
  }

  /** The triangle slider's `input` event with the slider's new value: the
      whole-degree angle (`parseInt`) redraws the triangle and the display.
      Without a slider element no listener exists. */
  function SliderInput(s: AppState, value: real): (r: Step)
    ensures s.slider.None? ==> r == Step(s, [])
    ensures s.slider.Some? ==>
              r.state == s.(slider := Some(value))
              && r.effects == [Draw(Triangle, Trunc(value) as real), Draw(CalculatorDisplay, Trunc(value) as real)]
  {
    match s.slider
    case None => Step(s, [])
    case Some(_) =>
      var angle := Trunc(value) as real;
      Step(s.(slider := Some(value)), [Draw(Triangle, angle), Draw(CalculatorDisplay, angle)])
  }

  /** Moving the slider and then revisiting the comparison page redraws the
      triangle at the angle the slider event drew. */
  lemma SliderAngleSurvivesRevisit(s: AppState, value: real)
    requires s.slider.Some?
    ensures var t := SliderInput(s, value);
            PageVisualizations(t.state, Comparison) == [Draw(Triangle, t.effects[0].angleDeg)]
  {
  }

  /** A click on angle button `i`: it becomes the only active button, and the
      circle and display are redrawn at its angle. */
  function ClickAngleButton(s: AppState, i: nat): (r: Step)
    requires i < |s.angleButtons|
    ensures |r.state.angleButtons| == |s.angleButtons|
    ensures forall j :: 0 <= j < |s.angleButtons| ==>
              r.state.angleButtons[j].angle == s.angleButtons[j].angle
              && (r.state.angleButtons[j].active <==> j == i)
    ensures r.state == s.(angleButtons := r.state.angleButtons)
    ensures var a := s.angleButtons[i].angle as real;
            r.effects == [Draw(UnitCircle, a), Draw(CalculatorDisplay, a)]
  {
    var buttons := seq(|s.angleButtons|, j requires 0 <= j < |s.angleButtons| => s.angleButtons[j].(active := j == i));
    var a := s.angleButtons[i].angle as real;
    Step(s.(angleButtons := buttons), [Draw(UnitCircle, a), Draw(CalculatorDisplay, a)])
  }

  /** After a click, the active button found by `querySelector` is the
      clicked one, so revisiting the page redraws exactly what the click
      drew. */
  lemma ClickedAngleSurvivesRevisit(s: AppState, i: nat)
    requires i < |s.angleButtons|
    ensures var r := ClickAngleButton(s, i);
            FirstActiveAngle(r.state.angleButtons) == Some(s.angleButtons[i].angle)
            && PageVisualizations(r.state, SpecialAngles) == r.effects
  {
    var b := ClickAngleButton(s, i).state.angleButtons;
    var k :| 0 <= k < |b| && b[k].active && b[k].angle == FirstActiveAngle(b).value
             && forall j :: 0 <= j < k ==> !b[j].active;
    assert k == i;
  }

  /** The window `resize` listener of components.js: on the comparison page
      refit and redraw the triangle at the slider's whole-degree value; on
      the special-angles page refit the circle canvas and redraw it at the
      active button's angle. The document state does not change. */
  function OnWindowResize(s: AppState): (r: Step)
    ensures r.state == s
    ensures s.currentPage != Comparison && s.currentPage != SpecialAngles ==> r.effects == []
    ensures s.currentPage == Comparison ==>
              |r.effects| >= 1 && r.effects[0] == ResizeCanvas(TriangleCanvasId)
              && r.effects[1..] == PageVisualizations(s, Comparison)
    ensures s.currentPage == SpecialAngles ==>
              |r.effects| >= 1 && r.effects[0] == ResizeCanvas(UnitCircleCanvasId)
              && r.effects[1..] == (var v := PageVisualizations(s, SpecialAngles);
                                    if v == [] then [] else v[..1])
              && LastDrawn(r.effects, CalculatorDisplay).None?
              && LastDrawn(r.effects, UnitCircle) == (match FirstActiveAngle(s.angleButtons)
                                                      case None => None
                                                      case Some(a) => Some(a as real))
  {
    var triangle :=
      if s.currentPage == Comparison then
        [ResizeCanvas(TriangleCanvasId)]
        + (match s.slider case None => [] case Some(v) => [Draw(Triangle, Trunc(v) as real)])
      else [];
    var circle :=
      if s.currentPage == SpecialAngles then
        [ResizeCanvas(UnitCircleCanvasId)]
        + (match FirstActiveAngle(s.angleButtons) case None => [] case Some(a) => [Draw(UnitCircle, a as real)])
      else [];
    Step(s, triangle + circle)
  }

  /** On the special-angles page a resize issues the same last circle draw
      as a revisit would. When an angle button is active, the circle then
      also shows the same angle after either; without one, see
      `ResizeBlanksUndrawnCircle`. */
  lemma ResizeRedrawsLikeRevisit(s: AppState, before: Option<real>)
    requires s.currentPage == SpecialAngles
    ensures LastDrawn(OnWindowResize(s).effects, UnitCircle) == LastDrawn(PageVisualizations(s, SpecialAngles), UnitCircle)
    ensures FirstActiveAngle(s.angleButtons).Some? ==>
              Shown(before, OnWindowResize(s).effects, UnitCircle)
              == Shown(before, PageVisualizations(s, SpecialAngles), UnitCircle)
              == Some(FirstActiveAngle(s.angleButtons).value as real)
  {
    var v := PageVisualizations(s, SpecialAngles);
    if v != [] {
      assert v[..1] == [v[0]];
    }
  }

  /** With no active angle button, a resize on the special-angles page leaves
      the circle blank, while a revisit leaves whatever it showed. */
  lemma ResizeBlanksUndrawnCircle(s: AppState, before: Option<real>)
    requires s.currentPage == SpecialAngles && FirstActiveAngle(s.angleButtons).None?
    ensures Shown(before, OnWindowResize(s).effects, UnitCircle) == None
    ensures Shown(before, PageVisualizations(s, SpecialAngles), UnitCircle) == before
  {
    assert PageVisualizations(s, SpecialAngles) == [];
    var e := OnWindowResize(s).effects;
    assert e == [ResizeCanvas(UnitCircleCanvasId)];
    assert Paints(e[0], UnitCircle);
  }
}
