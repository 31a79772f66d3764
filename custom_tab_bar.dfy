/**
 * CustomTabBar: a fixed row of equally wide tabs whose underline is moved by a
 * translation of one tab width per page and pulses to `tabUnderlineScaleX`
 * times its width halfway between tabs. The component never changes its own
 * state, so its logic is a handful of pure functions of the props.
 */
module CustomTabBar {
  import opened Wrappers

  /** An interpolation table for the framework's animated value: breakpoints and the outputs at them. */
  datatype Interpolation = Interpolation(inputRange: seq<real>, outputRange: seq<real>)

  /**
   * Reference shape of the scale table with `count` breakpoints: breakpoint i
   * sits at i / 2, and the output is 1 at even i and `scale` at odd i.
   */
  predicate IsScaleTable(t: Interpolation, count: nat, scale: real)
  {
    |t.inputRange| == count && |t.outputRange| == count
    && forall i :: 0 <= i < count ==>
         t.inputRange[i] == i as real / 2.0 && t.outputRange[i] == (if i % 2 == 0 then 1.0 else scale)
  }

  /**
   * The `reduce` over an array of `len` zeros from index `idx` on: each step
   * pushes the previous breakpoint plus 0.5 (the zero element itself at index
   * 0) and the scale at odd indices, 1 at even ones.
   */
  function ReduceFrom(len: nat, idx: nat, pre: Interpolation, defaultScale: real): (r: Interpolation)
    requires idx <= len && |pre.inputRange| == idx && |pre.outputRange| == idx
    ensures |r.inputRange| == len && |r.outputRange| == len
    ensures IsScaleTable(pre, idx, defaultScale) ==> IsScaleTable(r, len, defaultScale)
    decreases len - idx
  {
    if idx == len then pre
    else
      var cur := 0.0;
      var input := if idx == 0 then cur else pre.inputRange[idx - 1] + 0.5;
      var output := if idx % 2 != 0 then defaultScale else 1.0;
      ReduceFrom(len, idx + 1, Interpolation(pre.inputRange + [input], pre.outputRange + [output]), defaultScale)
  }

  /** `handleInterpolateObj`: the pulse table for `numberOfTabs` tabs, two breakpoints per tab. */
  function HandleInterpolateObj(numberOfTabs: nat, defaultScale: real): (r: Interpolation)
    ensures IsScaleTable(r, 2 * numberOfTabs, defaultScale)
  {
    ReduceFrom(2 * numberOfTabs, 0, Interpolation([], []), defaultScale)
  }

  /** The table starts at 0 and each breakpoint is the previous one plus 0.5; it is strictly increasing. */
  lemma BreakpointsIncrease(numberOfTabs: nat, defaultScale: real)
    ensures var t := HandleInterpolateObj(numberOfTabs, defaultScale);
      (numberOfTabs == 0 <==> t.inputRange == [] && t.outputRange == [])
      && (numberOfTabs > 0 ==> t.inputRange[0] == 0.0)
      && (forall i :: 0 < i < |t.inputRange| ==> t.inputRange[i] == t.inputRange[i - 1] + 0.5)
      && (forall i, j :: 0 <= i < j < |t.inputRange| ==> t.inputRange[i] < t.inputRange[j])
  {
  }

  /** The pulse: output 1 at every integer breakpoint k and the scale at every k + 0.5, for each tab k. */
  lemma PulseAtBreakpoints(numberOfTabs: nat, defaultScale: real, k: nat)
    requires k < numberOfTabs
    ensures var t := HandleInterpolateObj(numberOfTabs, defaultScale);
      t.inputRange[2 * k] == k as real && t.outputRange[2 * k] == 1.0
      && t.inputRange[2 * k + 1] == k as real + 0.5 && t.outputRange[2 * k + 1] == defaultScale
  {
    var t := HandleInterpolateObj(numberOfTabs, defaultScale);
    assert t.inputRange[2 * k] == (2 * k) as real / 2.0;
    assert t.inputRange[2 * k + 1] == (2 * k + 1) as real / 2.0;
    assert (2 * k + 1) % 2 == 1;
  }

  /**
   * `tabUnderlineWidth || containerWidth / (numberOfTabs * 2)`: the configured
   * width unless it is 0, else half a tab. None stands for the non-finite
   * number JavaScript produces when it divides by a zero tab count.
   */
  function UnderlineWidth(tabUnderlineWidth: real, containerWidth: real, numberOfTabs: nat): (r: Option<real>)
    ensures tabUnderlineWidth != 0.0 ==> r == Some(tabUnderlineWidth)
    ensures tabUnderlineWidth == 0.0 ==> (r.Some? <==> numberOfTabs > 0)
    ensures tabUnderlineWidth == 0.0 && r.Some? ==> r.value * (2 * numberOfTabs) as real == containerWidth
  {
    if tabUnderlineWidth != 0.0 then Some(tabUnderlineWidth)
    else if numberOfTabs == 0 then None
    else Some(containerWidth / (numberOfTabs * 2) as real)
  }

  /** The props `renderUnderline` reads (`tabUnderlineScaleX` is 3 and `tabUnderlineWidth` 30 unless given). */
  datatype UnderlineProps = UnderlineProps(containerWidth: real, tabUnderlineScaleX: real,
                                           tabUnderlineWidth: real, numberOfTabs: nat)

  /**
   * The underline `renderUnderline` builds: its width and left inset, the
   * translation table (progress 0 to 1 onto 0 to one tab width) and the scale
   * table. A None length is one JavaScript computes as a division by a zero tab count.
   */
  datatype Underline = Underline(width: Option<real>, left: Option<real>,
                                 translateX: Option<Interpolation>, scaleX: Interpolation)

  /** `renderUnderline`'s arithmetic. */
  function RenderUnderline(p: UnderlineProps): (u: Underline)
    ensures u.width == UnderlineWidth(p.tabUnderlineWidth, p.containerWidth, p.numberOfTabs)
    ensures u.scaleX == HandleInterpolateObj(p.numberOfTabs, p.tabUnderlineScaleX)
    ensures u.left.Some? <==> p.numberOfTabs > 0
    ensures u.translateX.Some? <==> p.numberOfTabs > 0
  {
    var underlineWidth := UnderlineWidth(p.tabUnderlineWidth, p.containerWidth, p.numberOfTabs);
    var scaleX := HandleInterpolateObj(p.numberOfTabs, p.tabUnderlineScaleX);
    if p.numberOfTabs == 0 then
      Underline(underlineWidth, None, None, scaleX)
    else
      var tabWidth := p.containerWidth / p.numberOfTabs as real;
      var deLen := (tabWidth - underlineWidth.value) / 2.0;
      Underline(underlineWidth, Some(deLen), Some(Interpolation([0.0, 1.0], [0.0, tabWidth])), scaleX)
  }

  /** The underline is centred in the first tab slot: inset, width and inset again fill one tab width. */
  lemma UnderlineCentredInFirstTab(p: UnderlineProps)
    requires p.numberOfTabs > 0
    ensures var u := RenderUnderline(p);
      u.width.Some? && u.left.Some?
      && (u.left.value + u.width.value + u.left.value) * p.numberOfTabs as real == p.containerWidth
      && (p.tabUnderlineWidth != 0.0 ==> u.width.value == p.tabUnderlineWidth)
      && (p.tabUnderlineWidth == 0.0 ==> u.left.value == u.width.value / 2.0)
  {
    var n := p.numberOfTabs as real;
    var w := RenderUnderline(p).width.value;
    var tab := p.containerWidth / n;
    assert (tab - w) / 2.0 + w + (tab - w) / 2.0 == tab;
    assert tab * n == p.containerWidth;
  }

  /**
   * The translation maps progress 0 to 0 and progress 1 to one tab width; the
   * scale table has two breakpoints per tab with pulse scale `tabUnderlineScaleX`.
   */
  lemma TranslationEndpoints(p: UnderlineProps)
    requires p.numberOfTabs > 0
    ensures var u := RenderUnderline(p);
      u.translateX.Some?
      && u.translateX.value.inputRange == [0.0, 1.0] && |u.translateX.value.outputRange| == 2
      && u.translateX.value.outputRange[0] == 0.0
      && u.translateX.value.outputRange[1] * p.numberOfTabs as real == p.containerWidth
      && IsScaleTable(u.scaleX, 2 * p.numberOfTabs, p.tabUnderlineScaleX)
  {
    var n := p.numberOfTabs as real;
    assert (p.containerWidth / n) * n == p.containerWidth;
  }

  /**
   * With no tabs the inset and the translation divide by zero, while a non-zero
   * configured width is still drawn and the scale table is empty.
   */
  lemma NoTabsUnderline(p: UnderlineProps)
    requires p.numberOfTabs == 0
    ensures var u := RenderUnderline(p);
      u.left == None && u.translateX == None
      && u.width == (if p.tabUnderlineWidth != 0.0 then Some(p.tabUnderlineWidth) else None)
      && u.scaleX.inputRange == [] && u.scaleX.outputRange == []
  {
  }
}
