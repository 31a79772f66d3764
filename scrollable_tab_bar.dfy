/**
 * The ScrollableTabBar component as a stateful object: a sparse cache of tab
 * measurements filled by layout callbacks in any order, the two layout records,
 * the container width kept in component state, and the three outputs it drives
 * (the scroll view's position and the underline's left edge and width). Every
 * layout callback re-runs `updateView` with the current progress, which is
 * passed in as a parameter.
 */
module ScrollableTabBar {
  import opened Wrappers
  import opened ScrollGeometry

  /** The props `updateView` depends on: the tab labels and the underline width (20 unless given). */
  datatype Props = Props(tabs: seq<string>, underlineWidth: real)

  /** The values handed to the framework: the last `scrollTo` target (None before the first) and the underline's left and width. */
  datatype Outputs = Outputs(scrollTarget: Option<real>, underlineLeft: real, underlineWidth: real)

  /** The outputs after an update: unchanged when it did not go ahead, otherwise all three replaced. */
  function Apply(o: Outputs, u: Option<ViewOutput>): (r: Outputs)
    ensures u.None? ==> r == o
    ensures u.Some? ==> r.scrollTarget == Some(u.value.scrollX) && r.underlineLeft == u.value.underlineLeft
                        && r.underlineWidth == u.value.underlineWidth
  {
    match u
    case None => o
    case Some(v) => Outputs(Some(v.scrollX), v.underlineLeft, v.underlineWidth)
  }

  /**
   * Tab label changes compare the JSON texts of the two arrays; for arrays of
   * strings the texts differ exactly when the lengths or some label differ.
   */
  predicate TabsChanged(current: seq<string>, next: seq<string>)
    ensures TabsChanged(current, next) <==>
      |current| != |next| || exists i :: 0 <= i < |current| && current[i] != next[i]
  {
    current != next
  }

  class TabBar {
    var props: Props
    /** `Platform.OS === 'android'`. */
    const android: bool
    /** `Dimensions.get('window').width`, read once when the module loads. */
    const windowWidth: real

    var tabsMeasurements: Cache
    var tabContainerMeasurements: Option<Layout>
    var containerMeasurements: Option<Layout>
    /** `state.containerWidth`; None is JavaScript's `null`. */
    var containerWidth: Option<real>

    /** The current value of the `leftTabUnderline` animated value. */
    var leftTabUnderline: real
    /** The current value of the `widthTabUnderline` animated value. */
    var widthTabUnderline: real
    /** The last offset passed to the scroll view's `scrollTo`. */
    var scrollTarget: Option<real>

    /** What `updateView` reads of this component. */
    function Inputs(): ViewInputs
      reads this
    {
      ViewInputs(|props.tabs|, tabsMeasurements, tabContainerMeasurements, containerMeasurements,
                 props.underlineWidth, android)
    }

    /** What this component currently shows. */
    function Shown(): Outputs
      reads this
    {
      Outputs(scrollTarget, leftTabUnderline, widthTabUnderline)
    }

    constructor (props: Props, android: bool, windowWidth: real)
      ensures this.props == props && this.android == android && this.windowWidth == windowWidth
      ensures tabsMeasurements == map[] && tabContainerMeasurements == None && containerMeasurements == None
      ensures containerWidth == None
      ensures Shown() == Outputs(None, 0.0, 0.0)
    {
      this.props := props;
      this.android := android;
      this.windowWidth := windowWidth;
      tabsMeasurements := map[];
      tabContainerMeasurements := None;
      containerMeasurements := None;
      containerWidth := None;
      leftTabUnderline := 0.0;
      widthTabUnderline := 0.0;
      scrollTarget := None;
    }

    /**
     * `componentWillReceiveProps` followed by the framework installing the new
     * props: a known, non-zero container width is forgotten when the labels
     * change. The measurement cache and the layout records are kept.
     */
    method ReceiveProps(nextProps: Props)
      modifies this`props, this`containerWidth
      ensures containerWidth ==
        if TabsChanged(old(props.tabs), nextProps.tabs) && old(containerWidth).Some? && old(containerWidth).value != 0.0
        then None else old(containerWidth)
      ensures props == nextProps
      ensures tabsMeasurements == old(tabsMeasurements)
      ensures tabContainerMeasurements == old(tabContainerMeasurements) && containerMeasurements == old(containerMeasurements)
      ensures Shown() == old(Shown())
    {
      if TabsChanged(props.tabs, nextProps.tabs) && containerWidth.Some? && containerWidth.value != 0.0 {
        containerWidth := None;
      }
      props := nextProps;
    }

    /** Layout of the inner tab row: record it, widen the container width to at least the window, update. */
    method OnTabContainerLayout(layout: Layout, progress: real)
      modifies this`tabContainerMeasurements, this`containerWidth
      modifies this`leftTabUnderline, this`widthTabUnderline, this`scrollTarget
      ensures tabContainerMeasurements == Some(layout)
      ensures containerWidth == Some(Max(layout.width, windowWidth))
      ensures containerWidth.value >= windowWidth && containerWidth.value >= layout.width
      ensures Shown() == Apply(old(Shown()), ViewUpdate(Inputs(), progress))
    {
      tabContainerMeasurements := Some(layout);
      var width := layout.width;
      if width < windowWidth {
        width := windowWidth;
      }
      containerWidth := Some(width);
      UpdateView(progress);
    }

    /** Layout of the outer container: record it and update. */
    method OnContainerLayout(layout: Layout, progress: real)
      modifies this`containerMeasurements
      modifies this`leftTabUnderline, this`widthTabUnderline, this`scrollTarget
      ensures containerMeasurements == Some(layout)
      ensures Shown() == Apply(old(Shown()), ViewUpdate(Inputs(), progress))
    {
      containerMeasurements := Some(layout);
      UpdateView(progress);
    }

    /** Layout of tab `page`: store its edges and size at that index, leaving every other entry as it was, and update. */
    method MeasureTab(page: nat, layout: Layout, progress: real)
      modifies this`tabsMeasurements
      modifies this`leftTabUnderline, this`widthTabUnderline, this`scrollTarget
      ensures tabsMeasurements == Record(old(tabsMeasurements), page, layout)
      ensures tabsMeasurements[page] == Measurement(layout.x, layout.x + layout.width, layout.width, layout.height)
      ensures Shown() == Apply(old(Shown()), ViewUpdate(Inputs(), progress))
    {
      tabsMeasurements := tabsMeasurements[page := Measurement(layout.x, layout.x + layout.width, layout.width, layout.height)];
      UpdateView(progress);
    }

    /** `updateView`: guard on the range, check readiness, then move the scroll view and the underline. */
    method UpdateView(value: real)
      modifies this`leftTabUnderline, this`widthTabUnderline, this`scrollTarget
      ensures Shown() == Apply(old(Shown()), ViewUpdate(Inputs(), value))
    {
      var position := value.Floor;
      var pageOffset := JsRem1(value);
      var tabCount := |props.tabs|;
      var lastTabPosition := tabCount - 1;

      if tabCount == 0 || value < 0.0 || value > lastTabPosition as real {
        return;
      }

      if MeasurementsCompleted(tabsMeasurements, tabContainerMeasurements, containerMeasurements,
                               position, position == lastTabPosition) {
        UpdateTabPanel(position, pageOffset);
        UpdateTabUnderline(position, pageOffset, tabCount);
      }
    }

    /** `updateTabPanel`: scroll so that the transitioning pair of tabs is centred, clamped to the content. */
    method UpdateTabPanel(position: int, pageOffset: real)
      requires position in tabsMeasurements && tabContainerMeasurements.Some? && containerMeasurements.Some?
      modifies this`scrollTarget
      ensures scrollTarget == Some(ScrollTarget(tabsMeasurements, tabContainerMeasurements.value.width,
                                                containerMeasurements.value.width, position, pageOffset, android))
    {
      var containerWidth := containerMeasurements.value.width;
      var tabWidth := tabsMeasurements[position].width;
      var nextTabWidth := if position + 1 in tabsMeasurements then tabsMeasurements[position + 1].width else 0.0;
      var tabOffset := tabsMeasurements[position].left;
      var absolutePageOffset := pageOffset * tabWidth;
      var newScrollX := tabOffset + absolutePageOffset;

      newScrollX := newScrollX - (containerWidth - ((1.0 - pageOffset) * tabWidth) - (pageOffset * nextTabWidth)) / 2.0;
      assert newScrollX == RawScrollX(tabsMeasurements, containerWidth, position, pageOffset);
      newScrollX := if newScrollX >= 0.0 then newScrollX else 0.0;

      if android {
        scrollTarget := Some(newScrollX);
      } else {
        var rightBoundScroll := tabContainerMeasurements.value.width - containerMeasurements.value.width;
        newScrollX := if newScrollX > rightBoundScroll then rightBoundScroll else newScrollX;
        scrollTarget := Some(newScrollX);
      }
    }

    /** `updateTabUnderline`: centre an underline of the configured width under the blended span of the two tabs. */
    method UpdateTabUnderline(position: int, pageOffset: real, tabCount: int)
      requires position in tabsMeasurements
      requires position < tabCount - 1 ==> position + 1 in tabsMeasurements
      modifies this`leftTabUnderline, this`widthTabUnderline
      ensures leftTabUnderline == UnderlineLeft(tabsMeasurements, position, pageOffset, tabCount, props.underlineWidth)
      ensures widthTabUnderline == props.underlineWidth
    {
      var lineLeft := tabsMeasurements[position].left;
      var lineRight := tabsMeasurements[position].right;
      var underlineWidth := props.underlineWidth;

      if position < tabCount - 1 {
        var nextTabLeft := tabsMeasurements[position + 1].left;
        var nextTabRight := tabsMeasurements[position + 1].right;

        var newLineLeft := (pageOffset * nextTabLeft) + ((1.0 - pageOffset) * lineLeft);
        var newLineRight := (pageOffset * nextTabRight) + ((1.0 - pageOffset) * lineRight);
        var offset := (newLineRight - newLineLeft - underlineWidth) / 2.0;

        BlendOfCentres(lineLeft, lineRight, nextTabLeft, nextTabRight, underlineWidth, pageOffset);
        leftTabUnderline := newLineLeft + offset;
        widthTabUnderline := underlineWidth;
      } else {
        var offset := (lineRight - lineLeft - underlineWidth) / 2.0;
        leftTabUnderline := lineLeft + offset;
        widthTabUnderline := underlineWidth;
      }
    }
  }

  /** Centring under the blended span is the same as blending the two centred positions. */
  lemma BlendOfCentres(l0: real, r0: real, l1: real, r1: real, u: real, p: real)
    ensures var left := p * l1 + (1.0 - p) * l0;
      var right := p * r1 + (1.0 - p) * r0;
      left + (right - left - u) / 2.0 == (1.0 - p) * ((l0 + r0 - u) / 2.0) + p * ((l1 + r1 - u) / 2.0)
  {
  }
}
