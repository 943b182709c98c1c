/** The `SafeAreaContainer` component: pins the flagged edges of its rectangle
    to the safe area, optionally zeroing their offsets, resets the scale and
    tells the editor which properties it drives. */
module Container {
  import opened Geometry
  import SafeAreaRect

  /** The members of the engine's `DrivenTransformProperties` flags that the
      component uses (`Scale` is the engine's combined x/y/z scale flag). */
  datatype DrivenProperty = AnchoredPositionZ | Scale | AnchorMinX | AnchorMinY | AnchorMaxX | AnchorMaxY

  /** The safe area's position and far corner divided by the screen size. */
  function Normalize(sa: Rect, screen: Screen): (n: Bounds)
    requires screen.Valid()
    ensures n.min.x * screen.W() == sa.x && n.min.y * screen.H() == sa.y
    ensures n.max.x * screen.W() == sa.x + sa.width && n.max.y * screen.H() == sa.y + sa.height
  {
    var min := sa.Position();
    var max := Add(min, sa.Size());
    Bounds(Vector2(min.x / screen.W(), min.y / screen.H()), Vector2(max.x / screen.W(), max.y / screen.H()))
  }

  /** The rectangle after `ApplySafeArea`: each flagged edge takes the safe
      area's anchor component and, when offsets are locked, a zero offset
      component; every other component is kept; the scale becomes one. */
  function ApplyRect(r: RectTransformState, edge: EdgeFlags, lockOffset: bool, sa: Rect, screen: Screen): (res: RectTransformState)
    requires screen.Valid()
    ensures var n := Normalize(sa, screen);
      && res.anchorMin.x == (if HasFlag(edge, Left) then n.min.x else r.anchorMin.x)
      && res.anchorMin.y == (if HasFlag(edge, Bottom) then n.min.y else r.anchorMin.y)
      && res.anchorMax.x == (if HasFlag(edge, Right) then n.max.x else r.anchorMax.x)
      && res.anchorMax.y == (if HasFlag(edge, Top) then n.max.y else r.anchorMax.y)
    ensures !lockOffset ==> res.offsetMin == r.offsetMin && res.offsetMax == r.offsetMax
    ensures lockOffset ==>
      && res.offsetMin.x == (if HasFlag(edge, Left) then 0.0 else r.offsetMin.x)
      && res.offsetMin.y == (if HasFlag(edge, Bottom) then 0.0 else r.offsetMin.y)
      && res.offsetMax.x == (if HasFlag(edge, Right) then 0.0 else r.offsetMax.x)
      && res.offsetMax.y == (if HasFlag(edge, Top) then 0.0 else r.offsetMax.y)
    ensures res.localScale == One3
  {
    var n := Normalize(sa, screen);
    var anchorMin := Vector2(if HasFlag(edge, Left) then n.min.x else r.anchorMin.x,
                             if HasFlag(edge, Bottom) then n.min.y else r.anchorMin.y);
    var offsetMin := Vector2(if HasFlag(edge, Left) then 0.0 else r.offsetMin.x,
                             if HasFlag(edge, Bottom) then 0.0 else r.offsetMin.y);
    var anchorMax := Vector2(if HasFlag(edge, Right) then n.max.x else r.anchorMax.x,
                             if HasFlag(edge, Top) then n.max.y else r.anchorMax.y);
    var offsetMax := Vector2(if HasFlag(edge, Right) then 0.0 else r.offsetMax.x,
                             if HasFlag(edge, Top) then 0.0 else r.offsetMax.y);
    RectTransformState(anchorMin, anchorMax,
                       if lockOffset then offsetMin else r.offsetMin,
                       if lockOffset then offsetMax else r.offsetMax,
                       One3)
  }

  /** Whether an edge mask drives a property: position z and scale always,
      each anchor component when its edge is enabled. */
  predicate Drives(edge: EdgeFlags, d: DrivenProperty) {
    match d
    case AnchoredPositionZ => true
    case Scale => true
    case AnchorMaxY => HasFlag(edge, Top)
    case AnchorMinY => HasFlag(edge, Bottom)
    case AnchorMinX => HasFlag(edge, Left)
    case AnchorMaxX => HasFlag(edge, Right)
  }

  /** The driven-property set of an edge mask. */
  function DrivenFor(edge: EdgeFlags): (p: set<DrivenProperty>)
    ensures AnchoredPositionZ in p && Scale in p
    ensures AnchorMaxY in p <==> HasFlag(edge, Top)
    ensures AnchorMinY in p <==> HasFlag(edge, Bottom)
    ensures AnchorMinX in p <==> HasFlag(edge, Left)
    ensures AnchorMaxX in p <==> HasFlag(edge, Right)
  {
    set d: DrivenProperty | Drives(edge, d)
  }

  /** `s` with `flag` added when `on` holds; `flag` is not yet in `s`. */
  function AddIf(s: set<DrivenProperty>, on: bool, flag: DrivenProperty): (r: set<DrivenProperty>)
    requires flag !in s
    ensures forall d :: d in r <==> d in s || (on && d == flag)
    ensures |r| == |s| + (if on then 1 else 0)
  {
    if on then s + {flag} else s
  }

  /** Two properties plus one per enabled edge. */
  lemma DrivenForSize(edge: EdgeFlags)
    ensures |DrivenFor(edge)| == 2 + EdgeCount(edge)
  {
    var base: set<DrivenProperty> := {AnchoredPositionZ, Scale};
    var s1 := AddIf(base, HasFlag(edge, Top), AnchorMaxY);
    var s2 := AddIf(s1, HasFlag(edge, Bottom), AnchorMinY);
    var s3 := AddIf(s2, HasFlag(edge, Left), AnchorMinX);
    var s4 := AddIf(s3, HasFlag(edge, Right), AnchorMaxX);
    assert forall d :: d in DrivenFor(edge) <==> d in s4;
    assert DrivenFor(edge) == s4;
  }

  class SafeAreaContainer {
    /** The serialized settings; no code of the component writes them. */
    const edge: EdgeFlags
    const lockOffset: bool
    /** The safe area used by the last `ApplySafeArea`. */
    var lastSafeArea: Rect
    /** The component's `RectTransform`. */
    var rect: RectTransformState
    /** What the driven-transform tracker holds. */
    var driven: set<DrivenProperty>
    /** The engine's `isActiveAndEnabled`. */
    var isActiveAndEnabled: bool
    /** The engine has destroyed the object: it then compares equal to null. */
    var destroyed: bool

    /** A live, enabled component with the given settings on the given rectangle. */
    constructor (edge0: EdgeFlags, lockOffset0: bool, initial: RectTransformState)
      ensures edge == edge0 && lockOffset == lockOffset0 && rect == initial
      ensures lastSafeArea == RectZero && driven == {}
      ensures isActiveAndEnabled && !destroyed
    {
      edge := edge0;
      lockOffset := lockOffset0;
      rect := initial;
      lastSafeArea := RectZero;
      driven := {};
      isActiveAndEnabled := true;
      destroyed := false;
    }

    /** Takes the safe area as an argument where the source reads
        `Screen.safeArea`. */
    method ApplySafeArea(safeArea: Rect, screen: Screen)
      requires screen.Valid()
      modifies this`lastSafeArea, this`rect, this`driven
      ensures lastSafeArea == safeArea
      ensures rect == ApplyRect(old(rect), edge, lockOffset, safeArea, screen)
      ensures driven == DrivenFor(edge)
    {
      lastSafeArea := safeArea;

      var min := safeArea.Position();
      var max := Add(min, safeArea.Size());

      min := min.(x := min.x / screen.W());
      min := min.(y := min.y / screen.H());
      max := max.(x := max.x / screen.W());
      max := max.(y := max.y / screen.H());

      var anchorMin := rect.anchorMin;
      var offsetMin := rect.offsetMin;

      if HasFlag(edge, Left) {
        anchorMin := anchorMin.(x := min.x);
        offsetMin := offsetMin.(x := 0.0);
      }

      if HasFlag(edge, Bottom) {
        anchorMin := anchorMin.(y := min.y);
        offsetMin := offsetMin.(y := 0.0);
      }

      var anchorMax := rect.anchorMax;
      var offsetMax := rect.offsetMax;

      if HasFlag(edge, Right) {
        anchorMax := anchorMax.(x := max.x);
        offsetMax := offsetMax.(x := 0.0);
      }

      if HasFlag(edge, Top) {
        anchorMax := anchorMax.(y := max.y);
        offsetMax := offsetMax.(y := 0.0);
      }

      rect := rect.(anchorMin := anchorMin);
      rect := rect.(anchorMax := anchorMax);

      if lockOffset {
        rect := rect.(offsetMin := offsetMin);
        rect := rect.(offsetMax := offsetMax);
      }

      rect := rect.(localScale := One3);

      var properties := {AnchoredPositionZ, Scale};
      if HasFlag(edge, Top) { properties := properties + {AnchorMaxY}; }
      if HasFlag(edge, Bottom) { properties := properties + {AnchorMinY}; }
      if HasFlag(edge, Left) { properties := properties + {AnchorMinX}; }
      if HasFlag(edge, Right) { properties := properties + {AnchorMaxX}; }

      assert forall d :: d in properties <==> Drives(edge, d);
      driven := properties;
    }

    /** `LateUpdate`: in the editor it applies every frame; in a player only
        when the safe area differs from the last one applied. */
    method LateUpdate(current: Rect, screen: Screen, inEditor: bool) returns (applied: bool)
      requires screen.Valid()
      modifies this`lastSafeArea, this`rect, this`driven
      ensures applied == (inEditor || old(lastSafeArea) != current)
      ensures applied ==> lastSafeArea == current && driven == DrivenFor(edge)
                          && rect == ApplyRect(old(rect), edge, lockOffset, current, screen)
      ensures !applied ==> unchanged(this)
    {
      applied := inEditor || lastSafeArea != current;
      if applied {
        ApplySafeArea(current, screen);
      }
    }
  }

  /** Both components normalise the safe area the same way. */
  lemma NormalizeAgrees(sa: Rect, screen: Screen)
    requires screen.Valid()
    ensures Normalize(sa, screen) == SafeAreaRect.GetSafeAreaAnchor(sa, screen)
  {
  }

  /** Applying twice with the same safe area gives the state of applying once. */
  lemma ApplyRectIdempotent(r: RectTransformState, edge: EdgeFlags, lockOffset: bool, sa: Rect, screen: Screen)
    requires screen.Valid()
    ensures ApplyRect(ApplyRect(r, edge, lockOffset, sa, screen), edge, lockOffset, sa, screen)
         == ApplyRect(r, edge, lockOffset, sa, screen)
  {
  }

  /** With every edge flagged the rectangle's anchors are exactly the
      normalised safe area, whatever they were before. */
  lemma AllEdgesPinToSafeArea(r: RectTransformState, lockOffset: bool, sa: Rect, screen: Screen)
    requires screen.Valid()
    ensures ApplyRect(r, AllEdges, lockOffset, sa, screen).anchorMin == Normalize(sa, screen).min
    ensures ApplyRect(r, AllEdges, lockOffset, sa, screen).anchorMax == Normalize(sa, screen).max
    ensures lockOffset ==> ApplyRect(r, AllEdges, lockOffset, sa, screen).offsetMin == Zero2
    ensures lockOffset ==> ApplyRect(r, AllEdges, lockOffset, sa, screen).offsetMax == Zero2
  {
  }
}
