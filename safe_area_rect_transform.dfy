/** The `SafeAreaRectTransform` component: turns the device safe area into
    normalised anchors in one of three modes and writes the matching pixel
    offsets onto its rectangle. The configuration types and the anchor
    arithmetic are functions; the component itself is a class whose methods
    overwrite the stored safe area and the rectangle's offsets. */
module SafeAreaRect {
  import opened Geometry

  datatype Mode = Automation | Simple | Advanced

  /** Which of the two candidate ranges an edge end is taken from. */
  datatype AnchorType = FullScreen | SafeArea

  /** One edge of the advanced configuration: the position `anchor` within the
      range whose low end is chosen by `min` and whose high end by `max`. */
  datatype EdgeAnchor = EdgeAnchor(anchor: real, min: AnchorType, max: AnchorType)

  /** The `EdgeAnchor(float)` constructor: both ends default to the full
      screen, so the resolved anchor is the lerp of the full-screen range and
      does not depend on the safe area. */
  function EdgeAnchorAt(anchor: real): (e: EdgeAnchor)
    ensures e.anchor == anchor
    ensures forall fullscreen: Vector2, safeArea: Vector2 ::
      GetAnchor(e, fullscreen, safeArea) == Lerp(fullscreen.x, fullscreen.y, anchor)
  {
    EdgeAnchor(anchor, FullScreen, FullScreen)
  }

  /** The `Simple` settings. */
  datatype SimpleConfig = SimpleConfig(
    offsetMin: Vector2,
    offsetMax: Vector2,
    edge: EdgeFlags,
    anchorMin: Vector2,
    anchorMax: Vector2)

  /** The `Advanced` settings. */
  datatype AdvancedConfig = AdvancedConfig(
    offsetMin: Vector2,
    offsetMax: Vector2,
    left: EdgeAnchor,
    right: EdgeAnchor,
    top: EdgeAnchor,
    bottom: EdgeAnchor)

  const DefaultSimple: SimpleConfig := SimpleConfig(Zero2, Zero2, AllEdges, Zero2, One2)

  const DefaultAdvanced: AdvancedConfig :=
    AdvancedConfig(Zero2, Zero2, EdgeAnchorAt(0.0), EdgeAnchorAt(1.0), EdgeAnchorAt(1.0), EdgeAnchorAt(0.0))

  /** The advanced settings under which Advanced reproduces Automation: every
      edge reads the safe area at both ends, left and bottom sit at the low end,
      right and top at the high end, and there are no offsets. */
  const AutomationAsAdvanced: AdvancedConfig :=
    AdvancedConfig(Zero2, Zero2,
      EdgeAnchor(0.0, SafeArea, SafeArea), EdgeAnchor(1.0, SafeArea, SafeArea),
      EdgeAnchor(1.0, SafeArea, SafeArea), EdgeAnchor(0.0, SafeArea, SafeArea))

  /** What a mode routine hands to `SetAnchorAndOffset`. */
  datatype Layout = Layout(anchorMin: Vector2, anchorMax: Vector2, offsetMin: Vector2, offsetMax: Vector2)

  /** The two offsets `SetAnchorAndOffset` writes. */
  datatype Offsets = Offsets(offsetMin: Vector2, offsetMax: Vector2)

  /** `GetSafeAreaAnchor`: the safe area's corners divided by the screen size. */
  function GetSafeAreaAnchor(sa: Rect, screen: Screen): (b: Bounds)
    requires screen.Valid()
    ensures b.min.x * screen.W() == sa.XMin() && b.min.y * screen.H() == sa.YMin()
    ensures b.max.x * screen.W() == sa.XMax() && b.max.y * screen.H() == sa.YMax()
    ensures sa.width >= 0.0 ==> b.min.x <= b.max.x
    ensures sa.height >= 0.0 ==> b.min.y <= b.max.y
    ensures screen.Contains(sa) ==> b.InUnitSquare()
  {
    Bounds(Vector2(sa.XMin() / screen.W(), sa.YMin() / screen.H()),
           Vector2(sa.XMax() / screen.W(), sa.YMax() / screen.H()))
  }

  /** `Choose`: the first value when the condition holds, the second otherwise. */
  function Choose<T>(condition: bool, a: T, b: T): (r: T)
    ensures condition ==> r == a
    ensures !condition ==> r == b
  {
    if condition then a else b
  }

  /** `GetAnchor`: a point of the range whose ends each come from the full
      screen or the safe area; both ranges are given as (low, high) in x, y. */
  function GetAnchor(edge: EdgeAnchor, fullscreen: Vector2, safeArea: Vector2): (r: real)
    ensures edge.anchor <= 0.0 ==> r == (if edge.min == SafeArea then safeArea.x else fullscreen.x)
    ensures edge.anchor >= 1.0 ==> r == (if edge.max == SafeArea then safeArea.y else fullscreen.y)
    ensures Between(if edge.min == SafeArea then safeArea.x else fullscreen.x,
                    if edge.max == SafeArea then safeArea.y else fullscreen.y, r)
  {
    var min := Choose(edge.min == SafeArea, safeArea.x, fullscreen.x);
    var max := Choose(edge.max == SafeArea, safeArea.y, fullscreen.y);
    Lerp(min, max, edge.anchor)
  }

  /** The Automation routine's layout: the safe area's anchors, no offsets. */
  function AutomationLayout(sa: Rect, screen: Screen): (l: Layout)
    requires screen.Valid()
    ensures Bounds(l.anchorMin, l.anchorMax) == GetSafeAreaAnchor(sa, screen)
    ensures l.offsetMin == Zero2 && l.offsetMax == Zero2
    ensures screen.Contains(sa) ==> Bounds(l.anchorMin, l.anchorMax).InUnitSquare()
  {
    var b := GetSafeAreaAnchor(sa, screen);
    Layout(b.min, b.max, Zero2, Zero2)
  }

  /** The range of the Simple routine: `min` holds (minX, minY) and `max`
      holds (maxX, maxY); an end reads the safe area exactly when its edge
      is flagged, and the full screen otherwise. */
  function SimpleRange(edge: EdgeFlags, safe: Bounds): (range: Bounds)
    ensures range.min.x == (if HasFlag(edge, Left) then safe.min.x else 0.0)
    ensures range.min.y == (if HasFlag(edge, Bottom) then safe.min.y else 0.0)
    ensures range.max.x == (if HasFlag(edge, Right) then safe.max.x else 1.0)
    ensures range.max.y == (if HasFlag(edge, Top) then safe.max.y else 1.0)
  {
    Bounds(Vector2(Choose(HasFlag(edge, Left), safe.min.x, Zero2.x),
                   Choose(HasFlag(edge, Bottom), safe.min.y, Zero2.y)),
           Vector2(Choose(HasFlag(edge, Right), safe.max.x, One2.x),
                   Choose(HasFlag(edge, Top), safe.max.y, One2.y)))
  }

  /** The Simple routine's layout: both anchors interpolate the chosen range
      by the configured anchors; the configured offsets pass through. */
  function SimpleLayout(cfg: SimpleConfig, sa: Rect, screen: Screen): (l: Layout)
    requires screen.Valid()
    ensures var range := SimpleRange(cfg.edge, GetSafeAreaAnchor(sa, screen));
      && Between(range.min.x, range.max.x, l.anchorMin.x)
      && Between(range.min.y, range.max.y, l.anchorMin.y)
      && Between(range.min.x, range.max.x, l.anchorMax.x)
      && Between(range.min.y, range.max.y, l.anchorMax.y)
      && (cfg.anchorMin == Zero2 && cfg.anchorMax == One2 ==>
            l.anchorMin == range.min && l.anchorMax == range.max)
    ensures l.offsetMin == cfg.offsetMin && l.offsetMax == cfg.offsetMax
  {
    var range := SimpleRange(cfg.edge, GetSafeAreaAnchor(sa, screen));
    Layout(Vector2(Lerp(range.min.x, range.max.x, cfg.anchorMin.x), Lerp(range.min.y, range.max.y, cfg.anchorMin.y)),
           Vector2(Lerp(range.min.x, range.max.x, cfg.anchorMax.x), Lerp(range.min.y, range.max.y, cfg.anchorMax.y)),
           cfg.offsetMin, cfg.offsetMax)
  }

  /** The Advanced routine's layout: each edge resolved on its own axis. */
  function AdvancedLayout(cfg: AdvancedConfig, sa: Rect, screen: Screen): (l: Layout)
    requires screen.Valid()
    ensures var b := GetSafeAreaAnchor(sa, screen);
      && Between(if cfg.left.min == SafeArea then b.min.x else 0.0,
                 if cfg.left.max == SafeArea then b.max.x else 1.0, l.anchorMin.x)
      && Between(if cfg.bottom.min == SafeArea then b.min.y else 0.0,
                 if cfg.bottom.max == SafeArea then b.max.y else 1.0, l.anchorMin.y)
      && Between(if cfg.right.min == SafeArea then b.min.x else 0.0,
                 if cfg.right.max == SafeArea then b.max.x else 1.0, l.anchorMax.x)
      && Between(if cfg.top.min == SafeArea then b.min.y else 0.0,
                 if cfg.top.max == SafeArea then b.max.y else 1.0, l.anchorMax.y)
    ensures l.offsetMin == cfg.offsetMin && l.offsetMax == cfg.offsetMax
  {
    var b := GetSafeAreaAnchor(sa, screen);
    var fullScreenX, fullScreenY := Vector2(Zero2.x, One2.x), Vector2(Zero2.y, One2.y);
    var safeAreaX, safeAreaY := Vector2(b.min.x, b.max.x), Vector2(b.min.y, b.max.y);
    Layout(Vector2(GetAnchor(cfg.left, fullScreenX, safeAreaX), GetAnchor(cfg.bottom, fullScreenY, safeAreaY)),
           Vector2(GetAnchor(cfg.right, fullScreenX, safeAreaX), GetAnchor(cfg.top, fullScreenY, safeAreaY)),
           cfg.offsetMin, cfg.offsetMax)
  }

  /** `ApplySafeArea`'s switch: the layout of exactly the configured mode. */
  function ModeLayout(mode: Mode, simple: SimpleConfig, advanced: AdvancedConfig, sa: Rect, screen: Screen): (l: Layout)
    requires screen.Valid()
    ensures mode == Automation ==> l == AutomationLayout(sa, screen)
    ensures mode == Simple ==> l == SimpleLayout(simple, sa, screen)
    ensures mode == Advanced ==> l == AdvancedLayout(advanced, sa, screen)
  {
    match mode
    case Automation => AutomationLayout(sa, screen)
    case Simple => SimpleLayout(simple, sa, screen)
    case Advanced => AdvancedLayout(advanced, sa, screen)
  }

  /** `GetCanvasSize`: the screen size on both of its branches. */
  function CanvasSize(screen: Screen): (size: Vector2)
    ensures size.x == screen.width as real && size.y == screen.height as real
    ensures screen.Valid() ==> size.x > 0.0 && size.y > 0.0
  {
    Vector2(screen.W(), screen.H())
  }

  /** Pixel positions of a rectangle's lower-left and upper-right corners
      inside a parent of size `parent`, for the given anchors and offsets. */
  function Corners(parent: Vector2, anchorMin: Vector2, anchorMax: Vector2, offsetMin: Vector2, offsetMax: Vector2): Bounds {
    Bounds(Add(Mul(parent, anchorMin), offsetMin), Add(Mul(parent, anchorMax), offsetMax))
  }

  /** The offsets `SetAnchorAndOffset` computes. Written onto a rectangle
      stretched over its parent (anchors (0,0) and (1,1)), they put its corners
      where the layout's anchors and offsets would; anchors (0,0)/(1,1) return
      the configured offsets themselves. */
  function OffsetsFor(l: Layout, canvas: Vector2): (o: Offsets)
    ensures Corners(canvas, Zero2, One2, o.offsetMin, o.offsetMax)
         == Corners(canvas, l.anchorMin, l.anchorMax, l.offsetMin, l.offsetMax)
    ensures l.anchorMin == Zero2 && l.anchorMax == One2 ==>
              o.offsetMin == l.offsetMin && o.offsetMax == l.offsetMax
  {
    var anchorMinSize := Mul(canvas, l.anchorMin);
    var anchorMaxSize := Sub(Mul(canvas, l.anchorMax), canvas);
    Offsets(Add(l.offsetMin, anchorMinSize), Add(l.offsetMax, anchorMaxSize))
  }

  /** The rectangle after `SetAnchorAndOffset` with layout `l`: new offsets,
      anchors and scale as they were. */
  function WithLayout(rect: RectTransformState, l: Layout, screen: Screen): (r: RectTransformState)
    ensures r.anchorMin == rect.anchorMin && r.anchorMax == rect.anchorMax && r.localScale == rect.localScale
    ensures Offsets(r.offsetMin, r.offsetMax) == OffsetsFor(l, CanvasSize(screen))
  {
    var o := OffsetsFor(l, CanvasSize(screen));
    rect.(offsetMin := o.offsetMin, offsetMax := o.offsetMax)
  }

  class SafeAreaRectTransform {
    var mode: Mode
    var simple: SimpleConfig
    var advanced: AdvancedConfig
    /** The last safe area read from the screen. */
    var safeArea: Rect
    /** The component's `RectTransform`. */
    var rect: RectTransformState

    /** A fresh component with the serialized defaults on the given rectangle. */
    constructor (initial: RectTransformState)
      ensures mode == Mode.Simple && simple == DefaultSimple && advanced == DefaultAdvanced
      ensures safeArea == RectZero && rect == initial
    {
      mode := Mode.Simple;
      simple := DefaultSimple;
      advanced := DefaultAdvanced;
      safeArea := RectZero;
      rect := initial;
    }

    method SetAnchorAndOffset(anchorMin: Vector2, anchorMax: Vector2, offsetMin: Vector2, offsetMax: Vector2, screen: Screen)
      modifies this`rect
      ensures rect == WithLayout(old(rect), Layout(anchorMin, anchorMax, offsetMin, offsetMax), screen)
    {
      var canvasSize := CanvasSize(screen);
      var anchorMinSize := Vector2(canvasSize.x * anchorMin.x, canvasSize.y * anchorMin.y);
      var anchorMaxSize := Sub(Vector2(canvasSize.x * anchorMax.x, canvasSize.y * anchorMax.y), canvasSize);
      assert anchorMinSize == Mul(canvasSize, anchorMin) && anchorMaxSize == Sub(Mul(canvasSize, anchorMax), canvasSize);
      rect := rect.(offsetMin := Add(offsetMin, anchorMinSize));
      rect := rect.(offsetMax := Add(offsetMax, anchorMaxSize));
    }

    method ApplySafeAreaAutomation(screen: Screen)
      requires screen.Valid()
      modifies this`rect
      ensures rect == WithLayout(old(rect), AutomationLayout(safeArea, screen), screen)
    {
      var safeAreaBounds := GetSafeAreaAnchor(safeArea, screen);
      SetAnchorAndOffset(safeAreaBounds.min, safeAreaBounds.max, Zero2, Zero2, screen);
    }

    method ApplySafeAreaSimple(screen: Screen)
      requires screen.Valid()
      modifies this`rect
      ensures rect == WithLayout(old(rect), SimpleLayout(simple, safeArea, screen), screen)
    {
      var offsetMin, offsetMax := simple.offsetMin, simple.offsetMax;
      var anchorMin, anchorMax := simple.anchorMin, simple.anchorMax;
      var edge := simple.edge;

      var fullscreenMin, fullscreenMax := Zero2, One2;
      var safeAreaBounds := GetSafeAreaAnchor(safeArea, screen);

      var minX := Choose(HasFlag(edge, Left), safeAreaBounds.min.x, fullscreenMin.x);
      var minY := Choose(HasFlag(edge, Bottom), safeAreaBounds.min.y, fullscreenMin.y);
      var maxX := Choose(HasFlag(edge, Right), safeAreaBounds.max.x, fullscreenMax.x);
      var maxY := Choose(HasFlag(edge, Top), safeAreaBounds.max.y, fullscreenMax.y);

      var finalAnchorMin := Vector2(Lerp(minX, maxX, anchorMin.x), Lerp(minY, maxY, anchorMin.y));
      var finalAnchorMax := Vector2(Lerp(minX, maxX, anchorMax.x), Lerp(minY, maxY, anchorMax.y));

      SetAnchorAndOffset(finalAnchorMin, finalAnchorMax, offsetMin, offsetMax, screen);
    }

    method ApplySafeAreaAdvanced(screen: Screen)
      requires screen.Valid()
      modifies this`rect
      ensures rect == WithLayout(old(rect), AdvancedLayout(advanced, safeArea, screen), screen)
    {
      var offsetMin, offsetMax := advanced.offsetMin, advanced.offsetMax;

      var fullscreenMin, fullscreenMax := Zero2, One2;
      var safeAreaBounds := GetSafeAreaAnchor(safeArea, screen);

      var fullScreenX := Vector2(fullscreenMin.x, fullscreenMax.x);
      var fullScreenY := Vector2(fullscreenMin.y, fullscreenMax.y);
      var safeAreaX := Vector2(safeAreaBounds.min.x, safeAreaBounds.max.x);
      var safeAreaY := Vector2(safeAreaBounds.min.y, safeAreaBounds.max.y);

      var finalAnchorMin := Vector2(GetAnchor(advanced.left, fullScreenX, safeAreaX), GetAnchor(advanced.bottom, fullScreenY, safeAreaY));
      var finalAnchorMax := Vector2(GetAnchor(advanced.right, fullScreenX, safeAreaX), GetAnchor(advanced.top, fullScreenY, safeAreaY));

      SetAnchorAndOffset(finalAnchorMin, finalAnchorMax, offsetMin, offsetMax, screen);
    }

    /** Runs the routine of the configured mode. The argument is not read: the
        routines use the stored `safeArea`, as in the source. */
    method ApplySafeArea(ignored: Rect, screen: Screen)
      requires screen.Valid()
      modifies this`rect
      ensures rect == WithLayout(old(rect), ModeLayout(mode, simple, advanced, safeArea, screen), screen)
    {
      match mode
      case Automation => ApplySafeAreaAutomation(screen);
      case Simple => ApplySafeAreaSimple(screen);
      case Advanced => ApplySafeAreaAdvanced(screen);
    }

    /** `Start`: store the current safe area and lay out once. */
    method Start(current: Rect, screen: Screen)
      requires screen.Valid()
      modifies this`safeArea, this`rect
      ensures safeArea == current
      ensures rect == WithLayout(old(rect), ModeLayout(mode, simple, advanced, current, screen), screen)
    {
      safeArea := current;
      ApplySafeArea(safeArea, screen);
    }

    /** The per-frame `Update`. In the editor outside play mode it always
        lays out; otherwise only when the screen's safe area differs from the
        stored one, which it stores before laying out. */
    method Update(current: Rect, screen: Screen, editorNotPlaying: bool) returns (recomputed: bool)
      requires screen.Valid()
      modifies this`safeArea, this`rect
      ensures recomputed == (editorNotPlaying || old(safeArea) != current)
      ensures safeArea == current
      ensures recomputed ==> rect == WithLayout(old(rect), ModeLayout(mode, simple, advanced, current, screen), screen)
      ensures !recomputed ==> rect == old(rect)
    {
      if editorNotPlaying {
        safeArea := current;
        ApplySafeArea(safeArea, screen);
        return true;
      }
      recomputed := false;
      if safeArea != current {
        safeArea := current;
        ApplySafeArea(safeArea, screen);
        recomputed := true;
      }
    }
  }

  /** Automation is Advanced with every edge on the safe area at both ends,
      left/bottom at 0, right/top at 1, and zero offsets. */
  lemma AutomationIsConfiguredAdvanced(sa: Rect, screen: Screen)
    requires screen.Valid()
    ensures AutomationLayout(sa, screen) == AdvancedLayout(AutomationAsAdvanced, sa, screen)
  {
  }

  /** The default advanced settings fill the screen whatever the safe area. */
  lemma DefaultAdvancedIsFullScreen(sa: Rect, screen: Screen)
    requires screen.Valid()
    ensures AdvancedLayout(DefaultAdvanced, sa, screen).anchorMin == Zero2
    ensures AdvancedLayout(DefaultAdvanced, sa, screen).anchorMax == One2
  {
  }

  /** The default simple settings give Automation's layout. */
  lemma DefaultSimpleIsAutomation(sa: Rect, screen: Screen)
    requires screen.Valid()
    ensures SimpleLayout(DefaultSimple, sa, screen) == AutomationLayout(sa, screen)
  {
  }

  /** With anchors (0,0)/(1,1), `SetAnchorAndOffset` writes the configured
      offsets unchanged and touches nothing else. */
  lemma FullScreenAnchorsKeepOffsets(rect: RectTransformState, offsetMin: Vector2, offsetMax: Vector2, screen: Screen)
    ensures WithLayout(rect, Layout(Zero2, One2, offsetMin, offsetMax), screen)
         == rect.(offsetMin := offsetMin, offsetMax := offsetMax)
  {
  }

  /** A 1000x2000 screen with a safe area of 1000x1800 starting 100 pixels up
      (so 100-pixel insets at the bottom and at the top): the normalised safe
      area, the Automation layout, and Simple with only the bottom edge. */
  lemma BottomInsetScenario()
    ensures GetSafeAreaAnchor(Rect(0.0, 100.0, 1000.0, 1800.0), Screen(1000, 2000))
         == Bounds(Vector2(0.0, 0.05), Vector2(1.0, 0.95))
    ensures AutomationLayout(Rect(0.0, 100.0, 1000.0, 1800.0), Screen(1000, 2000))
         == Layout(Vector2(0.0, 0.05), Vector2(1.0, 0.95), Zero2, Zero2)
    ensures SimpleLayout(DefaultSimple.(edge := Bottom), Rect(0.0, 100.0, 1000.0, 1800.0), Screen(1000, 2000))
         == Layout(Vector2(0.0, 0.05), One2, Zero2, Zero2)
  {
    var sa, screen := Rect(0.0, 100.0, 1000.0, 1800.0), Screen(1000, 2000);
    var b := GetSafeAreaAnchor(sa, screen);
    assert b.min.y * 2000.0 == 100.0 && b.max.y * 2000.0 == 1900.0;
    assert b.min.x * 1000.0 == 0.0 && b.max.x * 1000.0 == 1000.0;
  }

  /** The offsets Automation writes onto a stretched rectangle are the safe
      area's insets in pixels: the lower-left corner of the safe area, and the
      distance of its upper-right corner from the screen's, negated. */
  lemma AutomationOffsetsAreInsets(sa: Rect, screen: Screen)
    requires screen.Valid()
    ensures OffsetsFor(AutomationLayout(sa, screen), CanvasSize(screen))
         == Offsets(Vector2(sa.XMin(), sa.YMin()), Vector2(sa.XMax() - screen.W(), sa.YMax() - screen.H()))
  {
    var b := GetSafeAreaAnchor(sa, screen);
    assert Mul(CanvasSize(screen), b.min) == Vector2(sa.XMin(), sa.YMin());
    assert Mul(CanvasSize(screen), b.max) == Vector2(sa.XMax(), sa.YMax());
  }

  /** The 1000x2000 screen above: offsets (0, 100) and (0, -100). */
  lemma BottomInsetOffsets()
    ensures OffsetsFor(AutomationLayout(Rect(0.0, 100.0, 1000.0, 1800.0), Screen(1000, 2000)), CanvasSize(Screen(1000, 2000)))
         == Offsets(Vector2(0.0, 100.0), Vector2(0.0, -100.0))
  {
    AutomationOffsetsAreInsets(Rect(0.0, 100.0, 1000.0, 1800.0), Screen(1000, 2000));
  }
}
