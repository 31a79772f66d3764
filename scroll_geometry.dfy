/**
 * The arithmetic behind ScrollableTabBar's `updateView`: the range guard, the
 * readiness check over the sparse measurement cache, the clamped scroll target
 * and the centred, linearly blended underline. Everything here is a pure
 * function of the component's fields and the current progress value; the
 * component class in module ScrollableTabBar applies the result.
 */
module ScrollGeometry {
  import opened Wrappers

  /** Geometry of one rendered tab, as `measureTab` stores it. */
  datatype Measurement = Measurement(left: real, right: real, width: real, height: real)

  /** The rectangle a layout event carries (`nativeEvent.layout`). */
  datatype Layout = Layout(x: real, y: real, width: real, height: real)

  /** The per-tab cache: a sparse array, so an index is present only once its tab has been laid out. */
  type Cache = map<int, Measurement>

  function Max(a: real, b: real): real { if a >= b then a else b }

  function Min(a: real, b: real): real { if a <= b then a else b }

  // ---------------------------------------------------------------------------
  // Progress decomposition

  /** JavaScript's truncation toward zero. */
  function Trunc(v: real): int
  {
    if v >= 0.0 then v.Floor else -((-v).Floor)
  }

  /** JavaScript's `v % 1`: the remainder carries the sign of the dividend. */
  function JsRem1(v: real): (r: real)
    ensures 0.0 <= v ==> r == v - v.Floor as real && 0.0 <= r < 1.0
    ensures v < 0.0 ==> -1.0 < r <= 0.0
    ensures 0.0 <= v ==> (r == 0.0 <==> v == v.Floor as real)
  {
    v - Trunc(v) as real
  }

  // ---------------------------------------------------------------------------
  // Measurements

  /** What `measureTab` stores for a layout event: the right edge is the left edge plus the width. */
  function MeasurementOf(layout: Layout): (m: Measurement)
    ensures m.left == layout.x && m.width == layout.width && m.height == layout.height
    ensures m.right - m.left == layout.width
  {
    Measurement(layout.x, layout.x + layout.width, layout.width, layout.height)
  }

  /** Recording a tab's layout: the entry at `page` is replaced, every other entry is kept. */
  function Record(cache: Cache, page: int, layout: Layout): (c: Cache)
    ensures page in c && c[page] == MeasurementOf(layout)
    ensures forall i :: i != page ==> (i in c <==> i in cache)
    ensures forall i :: i != page && i in cache ==> c[i] == cache[i]
  {
    cache[page := MeasurementOf(layout)]
  }

  /** A measurement whose edges agree with its width, as every stored one does. */
  predicate WellFormed(m: Measurement)
  {
    m.right == m.left + m.width
  }

  // ---------------------------------------------------------------------------
  // The guard and the readiness check

  /** The progress values `updateView` acts on: a non-empty tab row and a value in [0, tabCount - 1]. */
  predicate InRange(tabCount: nat, value: real)
    ensures InRange(tabCount, value) ==> tabCount > 0 && 0 <= value.Floor < tabCount
  {
    !(tabCount == 0 || value < 0.0 || value > (tabCount - 1) as real)
  }

  /** The tab indices an update at `position` reads: the current one, and the next one unless this is the last. */
  function NeededTabs(position: int, isLastTab: bool): set<int>
  {
    if isLastTab then {position} else {position, position + 1}
  }

  /** `necessarilyMeasurementsCompleted`: the current tab, the next one unless this is the last, and both layouts. */
  predicate MeasurementsCompleted(cache: Cache, tabContainer: Option<Layout>, container: Option<Layout>,
                                  position: int, isLastTab: bool)
    ensures MeasurementsCompleted(cache, tabContainer, container, position, isLastTab) <==>
      NeededTabs(position, isLastTab) <= cache.Keys && tabContainer.Some? && container.Some?
  {
    position in cache && (isLastTab || position + 1 in cache) && tabContainer.Some? && container.Some?
  }

  // ---------------------------------------------------------------------------
  // Scroll target

  /** Width of the tab after `position`, or 0 when it has not been measured. */
  function NextTabWidth(cache: Cache, position: int): (w: real)
    ensures position + 1 in cache ==> w == cache[position + 1].width
    ensures position + 1 !in cache ==> w == 0.0
  {
    if position + 1 in cache then cache[position + 1].width else 0.0
  }

  /**
   * The unclamped scroll offset: the point `pageOffset` of the way across the
   * current tab, moved left by half of what the viewport leaves once the
   * blend of the current and next tab widths is taken out of it.
   */
  function RawScrollX(cache: Cache, containerWidth: real, position: int, pageOffset: real): (x: real)
    requires position in cache
    // With no fraction, the current tab's centre sits at the viewport's centre.
    ensures pageOffset == 0.0 ==>
      x + containerWidth / 2.0 == cache[position].left + cache[position].width / 2.0
    // With a whole tab's fraction, the scroll has moved to the centre of the next tab, taken to start where this one ends.
    ensures pageOffset == 1.0 && position + 1 in cache ==>
      x + containerWidth / 2.0 == cache[position].left + cache[position].width + cache[position + 1].width / 2.0
  {
    var tab := cache[position];
    tab.left + pageOffset * tab.width
      - (containerWidth - (1.0 - pageOffset) * tab.width - pageOffset * NextTabWidth(cache, position)) / 2.0
  }

  /**
   * The scroll target: never below 0; off android additionally never past
   * `tabContainerWidth - containerWidth`, the cap being applied after the
   * lower clamp.
   */
  function ScrollTarget(cache: Cache, tabContainerWidth: real, containerWidth: real,
                        position: int, pageOffset: real, android: bool): (x: real)
    requires position in cache
    ensures android ==> x == Max(RawScrollX(cache, containerWidth, position, pageOffset), 0.0)
    ensures !android ==> x == Min(Max(RawScrollX(cache, containerWidth, position, pageOffset), 0.0),
                                  tabContainerWidth - containerWidth)
    ensures android ==> 0.0 <= x && (RawScrollX(cache, containerWidth, position, pageOffset) >= 0.0 ==>
                                       x == RawScrollX(cache, containerWidth, position, pageOffset))
    ensures android && RawScrollX(cache, containerWidth, position, pageOffset) < 0.0 ==> x == 0.0
    ensures !android ==> x <= tabContainerWidth - containerWidth
    ensures !android && tabContainerWidth - containerWidth >= 0.0 ==> 0.0 <= x
    ensures !android && tabContainerWidth - containerWidth < 0.0 ==> x == tabContainerWidth - containerWidth
  {
    var x := Max(RawScrollX(cache, containerWidth, position, pageOffset), 0.0);
    if android then x else Min(x, tabContainerWidth - containerWidth)
  }

  // ---------------------------------------------------------------------------
  // Underline

  /** Left edge of an underline of width `underlineWidth` centred under `m`. */
  function Centered(m: Measurement, underlineWidth: real): real
  {
    (m.left + m.right - underlineWidth) / 2.0
  }

  /**
   * The underline's left edge: between two tabs, the linear blend of the
   * centred positions under each; on the last tab, the centred position under it.
   */
  function UnderlineLeft(cache: Cache, position: int, pageOffset: real, tabCount: int, underlineWidth: real): (x: real)
    requires position in cache
    requires position < tabCount - 1 ==> position + 1 in cache
    ensures pageOffset == 0.0 ==> x == Centered(cache[position], underlineWidth)
    ensures position < tabCount - 1 && pageOffset == 1.0 ==> x == Centered(cache[position + 1], underlineWidth)
    ensures position < tabCount - 1 && 0.0 <= pageOffset <= 1.0 ==>
      Min(Centered(cache[position], underlineWidth), Centered(cache[position + 1], underlineWidth)) <= x
      <= Max(Centered(cache[position], underlineWidth), Centered(cache[position + 1], underlineWidth))
  {
    if position < tabCount - 1 then
      var here, next := Centered(cache[position], underlineWidth), Centered(cache[position + 1], underlineWidth);
      BlendBetween(here, next, pageOffset);
      (1.0 - pageOffset) * here + pageOffset * next
    else
      Centered(cache[position], underlineWidth)
  }

  /** A blend (1 - p) * a + p * b with p in [0, 1] lies between a and b. */
  lemma BlendBetween(a: real, b: real, p: real)
    ensures 0.0 <= p <= 1.0 ==> Min(a, b) <= (1.0 - p) * a + p * b <= Max(a, b)
  {
    if 0.0 <= p <= 1.0 {
      assert (1.0 - p) * a + p * b == a + p * (b - a);
      if a <= b {
        MulMonotone(0.0, p, b - a);
        MulMonotone(p, 1.0, b - a);
      } else {
        MulMonotone(0.0, p, a - b);
        MulMonotone(p, 1.0, a - b);
        assert p * (b - a) == -(p * (a - b));
      }
    }
  }

  // ---------------------------------------------------------------------------
  // One update

  /** What `updateView` reads: the tab count, the caches, the underline width prop and the platform. */
  datatype ViewInputs = ViewInputs(tabCount: nat, cache: Cache, tabContainer: Option<Layout>,
                                   container: Option<Layout>, underlineWidth: real, android: bool)

  /** What an update that goes ahead sets: the scroll target and the underline's left edge and width. */
  datatype ViewOutput = ViewOutput(scrollX: real, underlineLeft: real, underlineWidth: real)

  /** `updateView` on progress `value`: None when it returns without touching anything. */
  function ViewUpdate(s: ViewInputs, value: real): (r: Option<ViewOutput>)
    ensures r.Some? ==> InRange(s.tabCount, value)
    ensures r.Some? ==> r.value.underlineWidth == s.underlineWidth
    ensures r.Some? && s.android ==> r.value.scrollX >= 0.0
    ensures r.Some? ==> s.tabContainer.Some? && s.container.Some?
                        && (!s.android ==> r.value.scrollX <= s.tabContainer.value.width - s.container.value.width)
  {
    if !InRange(s.tabCount, value) then None
    else
      var position := value.Floor;
      var pageOffset := value - position as real;
      if !MeasurementsCompleted(s.cache, s.tabContainer, s.container, position, position == s.tabCount - 1) then None
      else
        Some(ViewOutput(
          ScrollTarget(s.cache, s.tabContainer.value.width, s.container.value.width, position, pageOffset, s.android),
          UnderlineLeft(s.cache, position, pageOffset, s.tabCount, s.underlineWidth),
          s.underlineWidth))
  }

  // ---------------------------------------------------------------------------
  // Properties of one update

  /** Progress in range: the base position is a valid tab index, and on the last tab there is no fraction left. */
  lemma PositionWithinTabs(tabCount: nat, value: real)
    requires InRange(tabCount, value)
    ensures 0 <= value.Floor <= tabCount - 1
    ensures 0.0 <= value - value.Floor as real < 1.0
    ensures value.Floor == tabCount - 1 ==> value == (tabCount - 1) as real
  {
  }

  /** An empty tab row, or progress outside [0, tabCount - 1]: nothing is updated. */
  lemma OutOfRangeNoOp(s: ViewInputs, value: real)
    requires s.tabCount == 0 || value < 0.0 || value > (s.tabCount - 1) as real
    ensures ViewUpdate(s, value) == None
  {
  }

  /**
   * An in-range update goes ahead exactly when the current tab, the next tab
   * (unless the current one is the last) and both layout records are known.
   */
  lemma ReadinessDeferral(s: ViewInputs, value: real)
    requires InRange(s.tabCount, value)
    ensures ViewUpdate(s, value).Some? <==>
      var position := value.Floor;
      position in s.cache
      && (position == s.tabCount - 1 || position + 1 in s.cache)
      && s.tabContainer.Some? && s.container.Some?
  {
  }

  /** Whatever the progress, an update that goes ahead sets the underline to the configured width. */
  lemma UnderlineWidthConstant(s: ViewInputs, value: real)
    requires ViewUpdate(s, value).Some?
    ensures ViewUpdate(s, value).value.underlineWidth == s.underlineWidth
  {
  }

  /**
   * At an integer progress k (the last tab included) the underline is centred
   * under tab k alone: `left + (width - underlineWidth) / 2` for a stored measurement.
   */
  lemma UnderlineAtIntegerProgress(s: ViewInputs, k: nat)
    requires ViewUpdate(s, k as real).Some?
    ensures k in s.cache
    ensures ViewUpdate(s, k as real).value.underlineLeft == Centered(s.cache[k], s.underlineWidth)
    ensures WellFormed(s.cache[k]) ==>
      ViewUpdate(s, k as real).value.underlineLeft == s.cache[k].left + (s.cache[k].width - s.underlineWidth) / 2.0
  {
    assert (k as real).Floor == k;
  }

  /**
   * Between tabs `position` and `position + 1` the underline's left edge is the
   * blend (1 - p) * c(position) + p * c(position + 1) of the centred positions.
   */
  lemma UnderlineBlends(s: ViewInputs, value: real)
    requires ViewUpdate(s, value).Some?
    requires value.Floor < s.tabCount - 1
    ensures var position, p := value.Floor, value - value.Floor as real;
      position in s.cache && position + 1 in s.cache &&
      ViewUpdate(s, value).value.underlineLeft ==
        (1.0 - p) * Centered(s.cache[position], s.underlineWidth) + p * Centered(s.cache[position + 1], s.underlineWidth)
  {
  }

  /** On android the scroll target is max(x, 0) for the raw offset x: never negative, 0 when x is. */
  lemma AndroidScrollNonNegative(s: ViewInputs, value: real)
    requires ViewUpdate(s, value).Some? && s.android
    ensures var position, p := value.Floor, value - value.Floor as real;
      position in s.cache &&
      ViewUpdate(s, value).value.scrollX == Max(RawScrollX(s.cache, s.container.value.width, position, p), 0.0) &&
      ViewUpdate(s, value).value.scrollX >= 0.0 &&
      (RawScrollX(s.cache, s.container.value.width, position, p) < 0.0 ==> ViewUpdate(s, value).value.scrollX == 0.0)
  {
  }

  /**
   * Off android the scroll target is min(max(x, 0), rightBound) for the raw
   * offset x and rightBound = tab container width - container width; in
   * particular it is negative whenever the tab row is narrower than the container.
   */
  lemma OtherPlatformScrollClamp(s: ViewInputs, value: real)
    requires ViewUpdate(s, value).Some? && !s.android
    ensures var position, p := value.Floor, value - value.Floor as real;
      var rightBound := s.tabContainer.value.width - s.container.value.width;
      position in s.cache &&
      ViewUpdate(s, value).value.scrollX == Min(Max(RawScrollX(s.cache, s.container.value.width, position, p), 0.0), rightBound) &&
      (rightBound >= 0.0 ==> 0.0 <= ViewUpdate(s, value).value.scrollX <= rightBound) &&
      (rightBound < 0.0 ==> ViewUpdate(s, value).value.scrollX == rightBound)
  {
  }

  // ---------------------------------------------------------------------------
  // The measurement cache

  /** Layout events for two different tabs may arrive in either order: the cache ends up the same. */
  lemma RecordCommutes(cache: Cache, i: int, a: Layout, j: int, b: Layout)
    requires i != j
    ensures Record(Record(cache, i, a), j, b) == Record(Record(cache, j, b), i, a)
  {
  }

  /** Once an update is ready, recording further measurements never makes it wait again. */
  lemma ReadinessPersists(cache: Cache, tabContainer: Option<Layout>, container: Option<Layout>,
                          position: int, isLastTab: bool, page: int, layout: Layout)
    requires MeasurementsCompleted(cache, tabContainer, container, position, isLastTab)
    ensures MeasurementsCompleted(Record(cache, page, layout), tabContainer, container, position, isLastTab)
  {
  }

  // ---------------------------------------------------------------------------
  // The scroll target is monotone in the progress

  /** Every tab is measured, has a non-negative width, and no tab overlaps the one after it. */
  predicate LaidOut(cache: Cache, tabCount: nat)
  {
    (forall k :: 0 <= k < tabCount ==> k in cache && WellFormed(cache[k]) && cache[k].width >= 0.0)
    && (forall k :: 0 <= k < tabCount - 1 ==> cache[k].right <= cache[k + 1].left)
  }

  /** The unclamped scroll offset at integer progress k. */
  function Anchor(cache: Cache, containerWidth: real, k: int): real
    requires k in cache
  {
    cache[k].left + cache[k].width / 2.0 - containerWidth / 2.0
  }

  /** Within the segment of tab k the raw offset grows linearly from Anchor(k) at rate (w(k) + w(k+1)) / 2. */
  lemma RawScrollOnSegment(cache: Cache, containerWidth: real, k: int, p: real)
    requires k in cache
    ensures RawScrollX(cache, containerWidth, k, p)
      == Anchor(cache, containerWidth, k) + p * ((cache[k].width + NextTabWidth(cache, k)) / 2.0)
  {
    var w, nw := cache[k].width, NextTabWidth(cache, k);
    assert (1.0 - p) * w == w - p * w;
    assert p * ((w + nw) / 2.0) == (p * w + p * nw) / 2.0;
  }

  lemma MulMonotone(a: real, b: real, d: real)
    requires a <= b && 0.0 <= d
    ensures a * d <= b * d
  {
    assert b * d - a * d == (b - a) * d;
  }

  /** Moving from tab k to the next one, the end of k's segment does not pass the next anchor. */
  lemma AnchorStep(cache: Cache, tabCount: nat, containerWidth: real, k: int)
    requires LaidOut(cache, tabCount) && 0 <= k < tabCount - 1
    ensures k in cache && k + 1 in cache
    ensures Anchor(cache, containerWidth, k) + (cache[k].width + cache[k + 1].width) / 2.0
      <= Anchor(cache, containerWidth, k + 1)
  {
    assert cache[k].right <= cache[k + 1].left;
  }

  lemma {:induction false} AnchorMonotone(cache: Cache, tabCount: nat, containerWidth: real, i: int, j: int)
    requires LaidOut(cache, tabCount) && 0 <= i <= j < tabCount
    ensures i in cache && j in cache
    ensures Anchor(cache, containerWidth, i) <= Anchor(cache, containerWidth, j)
    decreases j - i
  {
    if i < j {
      AnchorStep(cache, tabCount, containerWidth, i);
      AnchorMonotone(cache, tabCount, containerWidth, i + 1, j);
    }
  }

  /** Inside tab k's segment the raw offset does not decrease (on the last tab the fraction is 0). */
  lemma SegmentMonotone(cache: Cache, tabCount: nat, containerWidth: real, k: int, p1: real, p2: real)
    requires LaidOut(cache, tabCount) && 0 <= k < tabCount && 0.0 <= p1 <= p2
    requires k == tabCount - 1 ==> p2 == 0.0
    ensures k in cache
    ensures RawScrollX(cache, containerWidth, k, p1) <= RawScrollX(cache, containerWidth, k, p2)
  {
    RawScrollOnSegment(cache, containerWidth, k, p1);
    RawScrollOnSegment(cache, containerWidth, k, p2);
    if k < tabCount - 1 {
      MulMonotone(p1, p2, (cache[k].width + NextTabWidth(cache, k)) / 2.0);
    }
  }

  /** Before the end of tab k's segment the raw offset stays at or below the next tab's anchor. */
  lemma SegmentBelowNextAnchor(cache: Cache, tabCount: nat, containerWidth: real, k: int, p: real)
    requires LaidOut(cache, tabCount) && 0 <= k < tabCount - 1 && 0.0 <= p < 1.0
    ensures k in cache && k + 1 in cache
    ensures RawScrollX(cache, containerWidth, k, p) <= Anchor(cache, containerWidth, k + 1)
  {
    var d := (cache[k].width + NextTabWidth(cache, k)) / 2.0;
    assert d == (cache[k].width + cache[k + 1].width) / 2.0;
    RawScrollOnSegment(cache, containerWidth, k, p);
    AnchorStep(cache, tabCount, containerWidth, k);
    StepBound(RawScrollX(cache, containerWidth, k, p), Anchor(cache, containerWidth, k),
              Anchor(cache, containerWidth, k + 1), p, d);
  }

  /** x = a + p * d with p below 1 and a + d at most b puts x at most b. */
  lemma StepBound(x: real, a: real, b: real, p: real, d: real)
    requires x == a + p * d && a + d <= b && 0.0 <= p < 1.0 && 0.0 <= d
    ensures x <= b
  {
    MulMonotone(p, 1.0, d);
  }

  /** On a fully laid-out row the raw scroll offset never decreases as the progress grows. */
  lemma RawScrollMonotone(cache: Cache, tabCount: nat, containerWidth: real, v1: real, v2: real)
    requires LaidOut(cache, tabCount)
    requires InRange(tabCount, v1) && InRange(tabCount, v2) && v1 <= v2
    ensures v1.Floor in cache && v2.Floor in cache
    ensures RawScrollX(cache, containerWidth, v1.Floor, v1 - v1.Floor as real)
      <= RawScrollX(cache, containerWidth, v2.Floor, v2 - v2.Floor as real)
  {
    var k1, k2 := v1.Floor, v2.Floor;
    var p1, p2 := v1 - k1 as real, v2 - k2 as real;
    PositionWithinTabs(tabCount, v1);
    PositionWithinTabs(tabCount, v2);
    if k1 == k2 {
      SegmentMonotone(cache, tabCount, containerWidth, k1, p1, p2);
    } else {
      SegmentBelowNextAnchor(cache, tabCount, containerWidth, k1, p1);
      AnchorMonotone(cache, tabCount, containerWidth, k1 + 1, k2);
      SegmentMonotone(cache, tabCount, containerWidth, k2, 0.0, p2);
      RawScrollOnSegment(cache, containerWidth, k2, 0.0);
    }
  }

  /**
   * On a fully laid-out row with both layouts known, every in-range update goes
   * ahead, and the scroll target never decreases as the progress grows.
   */
  lemma ScrollTargetMonotone(s: ViewInputs, v1: real, v2: real)
    requires LaidOut(s.cache, s.tabCount) && s.tabContainer.Some? && s.container.Some?
    requires InRange(s.tabCount, v1) && InRange(s.tabCount, v2) && v1 <= v2
    ensures ViewUpdate(s, v1).Some? && ViewUpdate(s, v2).Some?
    ensures ViewUpdate(s, v1).value.scrollX <= ViewUpdate(s, v2).value.scrollX
  {
    PositionWithinTabs(s.tabCount, v1);
    PositionWithinTabs(s.tabCount, v2);
    RawScrollMonotone(s.cache, s.tabCount, s.container.value.width, v1, v2);
  }

  // ---------------------------------------------------------------------------
  // A worked example

  /**
   * Three tabs of widths 40, 60 and 50 laid side by side from 0, a 200-wide
   * viewport and tab row, underline width 20, not android. Progress 0 clamps
   * the scroll to 0; progress 0.5 puts the underline halfway between the
   * centred positions 10 and 60; progress 2 centres it under the last tab, and
   * the raw offset 25 is capped at the right bound 0 (kept on android).
   */
  lemma ThreeTabScenario()
    ensures var cache := map[0 := Measurement(0.0, 40.0, 40.0, 50.0),
                             1 := Measurement(40.0, 100.0, 60.0, 50.0),
                             2 := Measurement(100.0, 150.0, 50.0, 50.0)];
      var viewport := Some(Layout(0.0, 0.0, 200.0, 50.0));
      var s := ViewInputs(3, cache, viewport, viewport, 20.0, false);
      ViewUpdate(s, 0.0) == Some(ViewOutput(0.0, 10.0, 20.0))
      && ViewUpdate(s, 0.5) == Some(ViewOutput(0.0, 35.0, 20.0))
      && ViewUpdate(s, 2.0) == Some(ViewOutput(0.0, 115.0, 20.0))
      && ViewUpdate(s.(android := true), 2.0) == Some(ViewOutput(25.0, 115.0, 20.0))
  {
    assert 0.0.Floor == 0 && 0.5.Floor == 0 && 2.0.Floor == 2;
  }
}
