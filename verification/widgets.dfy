/**
 * The panes of meter/widgets.py that carry state: the toggle `Button`, the
 * three-state `Indicator`, the two-line `Graph` and the dual `VUMeter`,
 * with the arithmetic the VU meter uses to lay out its scale.
 */
module Widgets {
  import opened Base
  import opened Events
  import opened Grid
  import opened History

  // ---------------------------------------------------------------- Button

  /** The state a button moves to on an event: a press flips an enabled button. */
  function PressedState(disabled: bool, state: bool, kind: EventKind): bool
  {
    if kind == MouseButtonDown && !disabled then !state else state
  }

  /** Two presses bring an enabled button back to where it was. */
  lemma PressTwiceRestores(state: bool)
    ensures PressedState(false, PressedState(false, state, MouseButtonDown), MouseButtonDown) == state
  {
  }

  /** Neither a disabled button nor an event other than a press changes the state. */
  lemma OnlyEnabledPressesToggle(disabled: bool, state: bool, kind: EventKind)
    ensures PressedState(disabled, state, kind) != state <==> kind == MouseButtonDown && !disabled
  {
  }

  /**
   * A toggle button. It is enabled or disabled, and its `state` is the
   * toggle; disabling it leaves `state` as it is.
   */
  class Button {
    const node: Gridable
    const text: string
    var disabled: bool
    var state: bool
    var hasCallback: bool

    constructor (text: string)
      ensures fresh(node) && node.parent == NoParent && node.visible
      ensures node.rowSpan == 1 && node.colSpan == 1
      ensures this.text == text && !disabled && !state && !hasCallback
    {
      node := new Gridable(1, 1);
      this.text := text;
      disabled := false;
      state := false;
      hasCallback := false;
    }

    /**
     * `event`: a press on an enabled button flips `state` and calls the
     * callback, when there is one, once with the new state (returned here as
     * the argument of that call); anything else changes nothing and calls
     * nothing.
     */
    method Event(ev: Event) returns (call: Option<bool>)
      modifies this`state
      ensures state == PressedState(disabled, old(state), ev.kind)
      ensures call.Some? <==> ev.kind == MouseButtonDown && !disabled && hasCallback
      ensures call.Some? ==> call.value == state
    {
      call := None;
      if ev.kind == MouseButtonDown {
        if disabled {
          return;
        }
        state := !state;
        if hasCallback {
          call := Some(state);
        }
      }
    }
  }

  // ---------------------------------------------------------------- Indicator

  /** The colour an indicator is drawn in: green for MID, orange for LOW, red otherwise. */
  function IndicatorColour(s: IndicatorState): (c: Colour)
    ensures c == Green <==> s == Mid
    ensures c == Orange <==> s == Low
  {
    if s == Mid then Green else if s == Low then Orange else Red
  }

  /**
   * The colour main.py and SPL_meter.py compute directly from a level is
   * the colour of the indicator state the package classifies it into.
   */
  lemma LevelColourIsIndicatorColour(v: real, quiet: real, loud: real)
    ensures LevelColour(v, quiet, loud) == IndicatorColour(Classify(v, quiet, loud))
  {
  }

  class Indicator {
    const node: Gridable
    const labelText: string
    var state: IndicatorState
    var dirty: bool

    constructor (labelText: string, rowSpan: int)
      ensures fresh(node) && node.parent == NoParent && node.visible
      ensures node.rowSpan == rowSpan && node.colSpan == 1
      ensures this.labelText == labelText && state == Mid && !dirty
    {
      node := new Gridable(rowSpan, 1);
      this.labelText := labelText;
      state := Mid;
      dirty := false;
    }
  }

  // ---------------------------------------------------------------- Graph

  /** Dropping the head of a list that is over its bound keeps the same recent window. */
  lemma RecentDropHead<T>(s: seq<T>, n: nat)
    requires |s| > n
    ensures Recent(s[1..], n) == Recent(s, n)
  {
  }

  /** Up to two lines of levels, each bounded to `graphSamples` entries. */
  class Graph {
    const node: Gridable
    const graphSamples: nat
    var dataSets: seq<seq<real>>

    ghost predicate Valid()
      reads this
    {
      |dataSets| == 2 && forall i | 0 <= i < 2 :: |dataSets[i]| <= graphSamples
    }

    constructor (graphSamples: nat, rowSpan: int, colSpan: int)
      ensures Valid() && fresh(node) && node.parent == NoParent && node.visible
      ensures node.rowSpan == rowSpan && node.colSpan == colSpan
      ensures this.graphSamples == graphSamples && dataSets == [[], []]
    {
      node := new Gridable(rowSpan, colSpan);
      this.graphSamples := graphSamples;
      dataSets := [[], []];
    }

    /**
     * `feed`: appends to line `setNum`, then drops the oldest entries while
     * the line is too long, so the line holds the most recent values in
     * arrival order. The other line is untouched.
     */
    method Feed(setNum: nat, data: real)
      requires Valid() && setNum < 2
      modifies this`dataSets
      ensures Valid()
      ensures dataSets[setNum] == Recent(old(dataSets[setNum]) + [data], graphSamples)
      ensures dataSets[1 - setNum] == old(dataSets[1 - setNum])
      ensures setNum == 0 ==> dataSets[1] == old(dataSets[1])
      ensures setNum == 1 ==> dataSets[0] == old(dataSets[0])
    {
      dataSets := dataSets[setNum := dataSets[setNum] + [data]];
      while |dataSets[setNum]| > graphSamples
        invariant |dataSets| == 2
        invariant dataSets[1 - setNum] == old(dataSets[1 - setNum])
        invariant Recent(dataSets[setNum], graphSamples) == Recent(old(dataSets[setNum]) + [data], graphSamples)
        decreases |dataSets[setNum]|
      {
        RecentDropHead(dataSets[setNum], graphSamples);
        dataSets := dataSets[setNum := dataSets[setNum][1..]];
      }
    }
  }

  // ---------------------------------------------------------------- VUMeter

  /** Two bars (current level and average) per channel, both starting at silence. */
  class VUMeter {
    const node: Gridable
    var avg: seq<real>
    var curr: seq<real>
    var loud: real
    var quiet: real
    var dirty: bool

    constructor (loud: real, quiet: real, rowSpan: int)
      ensures fresh(node) && node.parent == NoParent && node.visible
      ensures node.rowSpan == rowSpan && node.colSpan == 1
      ensures avg == [48.0, 48.0] && curr == [48.0, 48.0]
      ensures this.loud == loud && this.quiet == quiet && !dirty
    {
      node := new Gridable(rowSpan, 1);
      avg := [48.0, 48.0];
      curr := [48.0, 48.0];
      this.loud := loud;
      this.quiet := quiet;
      dirty := false;
    }
  }

  /** The value written next to tick `i` of the scale: steps of 3 up to 24, then of 6. */
  function ScaleLabel(i: int): int
  {
    i * 3 + (if i < 8 then 0 else 3 * (i - 8))
  }

  /** The thirteen ticks read 0, 3, ..., 21, 24, 30, 36, 42, 48. */
  lemma ScaleLabelValues()
    ensures seq(13, ScaleLabel) == [0, 3, 6, 9, 12, 15, 18, 21, 24, 30, 36, 42, 48]
  {
  }

  /** The ticks increase strictly and stay within the level range. */
  lemma ScaleLabelsIncreaseWithinRange(i: int, j: int)
    requires 0 <= i < j <= 12
    ensures ScaleLabel(i) < ScaleLabel(j)
    ensures 0 <= ScaleLabel(i) && ScaleLabel(j) <= 48
  {
  }

  /**
   * `get_y` before rounding: how far down the bar area a level sits. The
   * first 24 levels take two thirds of the twelve steps, the last 24 one third.
   */
  function BarOffset(vuHeight: real, vu: real): real
  {
    var step := (vuHeight - 4.0) / 12.0;
    var yp := step * (if vu < 24.0 then vu else 24.0) / 3.0;
    if vu > 24.0 then yp + step * (vu - 24.0) / 6.0 else yp
  }

  /** A quieter level never sits higher up the meter. */
  lemma BarOffsetMonotone(vuHeight: real, a: real, b: real)
    requires vuHeight >= 4.0 && a <= b
    ensures BarOffset(vuHeight, a) <= BarOffset(vuHeight, b)
  {
    var step := (vuHeight - 4.0) / 12.0;
    assert step >= 0.0;
    if b > 24.0 {
      assert step * (b - 24.0) / 6.0 >= 0.0;
      if a > 24.0 {
        assert step * (a - 24.0) <= step * (b - 24.0);
      } else {
        assert BarOffset(vuHeight, a) == step * a / 3.0;
        assert BarOffset(vuHeight, b) == step * 24.0 / 3.0 + step * (b - 24.0) / 6.0;
        assert step * a <= step * 24.0;
      }
    } else {
      assert step * a <= step * b;
    }
  }

  /** The scale's anchor points: the top at 0, eight steps at 24, the bottom (`vuHeight - 4`) at 48. */
  lemma BarOffsetAnchors(vuHeight: real)
    ensures BarOffset(vuHeight, 0.0) == 0.0
    ensures BarOffset(vuHeight, 24.0) == 8.0 * ((vuHeight - 4.0) / 12.0)
    ensures BarOffset(vuHeight, 48.0) == vuHeight - 4.0
  {
  }
}
