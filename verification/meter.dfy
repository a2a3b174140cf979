/**
 * The application object of meter/meter.py: the screen layout built from
 * a `GridingManager`, the four buttons and their callbacks, the centre
 * panes that `reflow` rearranges, and the way each new level reaches the
 * graph, the indicators and the VU meter.
 */
module MeterApp {
  import opened Base
  import opened Events
  import opened Levels
  import opened History
  import opened Grid
  import opened Widgets

  /** Button indices in `buttons`. */
  const AwBtn: nat := 0
  const SpeechBtn: nat := 1
  const SplitBtn: nat := 2
  const GraphBtn: nat := 3

  /** Threshold defaults used when the configuration does not name them. */
  const DefaultLoudMusic: real := 3.0
  const DefaultQuietMusic: real := 15.0
  const DefaultLoudSpeech: real := 12.0
  const DefaultQuietSpeech: real := 30.0
  const DefaultAverageSamples: nat := 20

  /** The configuration values the core reads, as `CONFIG.get` resolves them. */
  datatype Config = Config(
    lineIn: bool,
    averageSamples: nat,
    graphSamples: nat,
    loudMusic: real,
    quietMusic: real,
    loudSpeech: real,
    quietSpeech: real,
    source1Label: Option<string>)

  /**
   * The configuration as `Meter` resolves it when the file names none of
   * the keys it reads through `CONFIG.get`: thresholds 3/15 for music and
   * 12/30 for speech, a window of 20. `graph_samples` has no default and
   * stays a parameter. The VU meter and the graph read `loud_music`,
   * `quiet_music` and `graph_samples` without a default, so a file that
   * lacks those raises KeyError instead.
   */
  function DefaultThresholds(lineIn: bool, graphSamples: nat): (c: Config)
    ensures c.loudMusic < c.quietMusic && c.loudSpeech < c.quietSpeech
    ensures c.averageSamples > 0
  {
    Config(lineIn, DefaultAverageSamples, graphSamples,
           DefaultLoudMusic, DefaultQuietMusic, DefaultLoudSpeech, DefaultQuietSpeech, None)
  }

  /**
   * Under those defaults both threshold pairs leave a band of averages
   * that the indicators show as MID.
   */
  lemma DefaultsLeaveMidBand(lineIn: bool, graphSamples: nat)
    ensures var c := DefaultThresholds(lineIn, graphSamples);
      && (exists a :: Classify(a, c.quietMusic, c.loudMusic) == Mid)
      && (exists a :: Classify(a, c.quietSpeech, c.loudSpeech) == Mid)
  {
    var c := DefaultThresholds(lineIn, graphSamples);
    MidBandExists(c.quietMusic, c.loudMusic);
    MidBandExists(c.quietSpeech, c.loudSpeech);
  }

  // ---------------------------------------------------------------- the reflow table

  /** The three panes `reflow` rearranges in the middle of the screen. */
  datatype CentrePane = Ind0 | Ind1 | GraphPane

  /** Where a centre pane is registered, and its spans. */
  datatype Slot = Slot(cell: Cell, colSpan: int, rowSpan: int)

  /**
   * The four cases of `reflow`: which centre panes are registered, and
   * where. `dual` is "a second input is shown" (line-in, or the split button
   * on); `showGraph` is the graph button.
   */
  function ReflowTable(dual: bool, showGraph: bool): map<CentrePane, Slot>
  {
    if dual && showGraph then
      map[Ind0 := Slot(Cell(1, 0), 1, 2), Ind1 := Slot(Cell(2, 0), 1, 2), GraphPane := Slot(Cell(1, 2), 2, 2)]
    else if dual then
      map[Ind0 := Slot(Cell(1, 0), 2, 2), Ind1 := Slot(Cell(1, 2), 2, 2)]
    else if showGraph then
      map[Ind0 := Slot(Cell(1, 0), 2, 2), GraphPane := Slot(Cell(1, 2), 2, 2)]
    else
      map[Ind0 := Slot(Cell(1, 0), 2, 4)]
  }

  predicate Covers(s: Slot, column: int, row: int)
  {
    s.cell.column <= column < s.cell.column + s.colSpan && s.cell.row <= row < s.cell.row + s.rowSpan
  }

  function Hit(t: map<CentrePane, Slot>, p: CentrePane, column: int, row: int): nat
  {
    if p in t && Covers(t[p], column, row) then 1 else 0
  }

  /** How many registered centre panes cover the grid cell (column, row). */
  function CoverCount(t: map<CentrePane, Slot>, column: int, row: int): nat
  {
    Hit(t, Ind0, column, row) + Hit(t, Ind1, column, row) + Hit(t, GraphPane, column, row)
  }

  /**
   * In every case the registered centre panes tile columns 1-2 by rows
   * 0-3: each of those cells is covered exactly once, and no other cell is.
   */
  lemma ReflowTiles(dual: bool, showGraph: bool, column: int, row: int)
    ensures CoverCount(ReflowTable(dual, showGraph), column, row) ==
      if 1 <= column <= 2 && 0 <= row <= 3 then 1 else 0
  {
  }

  /**
   * The first indicator is always shown, the second exactly when a second
   * input is, and the graph exactly when its button is on.
   */
  lemma ReflowShowsWhatIsAsked(dual: bool, showGraph: bool)
    ensures Ind0 in ReflowTable(dual, showGraph)
    ensures Ind1 in ReflowTable(dual, showGraph) <==> dual
    ensures GraphPane in ReflowTable(dual, showGraph) <==> showGraph
  {
  }

  // ---------------------------------------------------------------- read_stream1

  /**
   * The `add_value` calls of one `read_stream1` iteration, in order: those
   * of split routing, then the flat line at 48 on channel 1 when neither
   * line-in nor split mode is on.
   */
  function Stream1Feeds(lineIn: bool, split: bool, aWeighting: bool, raw: Signal, num: Numerics): seq<Feed>
    requires |raw| > 0 && FiltersKeepLength(num)
  {
    SplitFeeds(split, aWeighting, raw, num) + (if !(lineIn || split) then [Feed(Silence, 1)] else [])
  }

  /**
   * Routing of one iteration: channel 0 always gets exactly one level, the
   * high band in split mode and the block's level otherwise; channel 1
   * gets the low band in split mode, the flat line 48 when there is no
   * second input, and nothing when line-in feeds it from its own stream.
   */
  lemma Stream1Routing(lineIn: bool, split: bool, aWeighting: bool, raw: Signal, num: Numerics)
    requires |raw| > 0 && FiltersKeepLength(num)
    ensures var feeds := Stream1Feeds(lineIn, split, aWeighting, raw, num);
      var b := ReadBlock(aWeighting, raw, num);
      && ChannelLevels(feeds, 0) == [if split then Level(num.highPass(b.data), num) else b.db]
      && ChannelLevels(feeds, 1) ==
           if split then [Level(num.lowPass(b.data), num)] else if lineIn then [] else [Silence]
  {
    var feeds := Stream1Feeds(lineIn, split, aWeighting, raw, num);
    if split {
      assert feeds[1..] == [feeds[1]];
    } else if !lineIn {
      assert feeds[1..] == [feeds[1]];
    }
  }

  // ---------------------------------------------------------------- setup_display

  /** The button labels, in index order. */
  const ButtonLabels: seq<string> := ["A/W", "SPEECH", "SPLIT", "GRAPH"]

  /** `CONFIG.get(key, default)` for a string setting. */
  function LabelOr(setting: Option<string>, fallback: string): (text: string)
    ensures setting.None? ==> text == fallback
    ensures setting.Some? ==> text == setting.value
  {
    match setting
    case None => fallback
    case Some(v) => v
  }

  /**
   * The list comprehension of `setup_display`: button i is built with its
   * label and registered at column 0, row i; earlier registrations stay.
   */
  method GridButtons(b: GridingManager) returns (buttons: seq<Button>)
    requires b.Valid()
    modifies b
    ensures b.Valid() && b.rows == Max(old(b.rows), 4) && b.columns == Max(old(b.columns), 1)
    ensures |buttons| == 4
    ensures forall i | 0 <= i < 4 :: fresh(buttons[i]) && fresh(buttons[i].node)
    ensures forall i, j | 0 <= i < j < 4 :: buttons[i].node != buttons[j].node
    ensures |buttons| == 4 && ButtonsNamed(b, buttons) && ButtonsIdle(buttons)
    ensures forall k | k in old(b.children.values) :: k in b.children.values && b.children.values[k] == old(b.children.values)[k]
    ensures ButtonsAt(b.children.values, buttons)
  {
    buttons := [];
    var i := 0;
    while i < 4
      invariant 0 <= i <= 4 && |buttons| == i
      invariant b.Valid() && b.rows == Max(old(b.rows), i)
      invariant b.columns == if i == 0 then old(b.columns) else Max(old(b.columns), 1)
      invariant forall j | 0 <= j < i :: fresh(buttons[j]) && fresh(buttons[j].node)
      invariant forall j, k | 0 <= j < k < i :: buttons[j].node != buttons[k].node
      invariant forall j | 0 <= j < i ::
        && buttons[j].text == ButtonLabels[j] && !buttons[j].disabled && !buttons[j].state && !buttons[j].hasCallback
        && buttons[j].node.parent == GridParent(b)
        && buttons[j].node in b.children.values && b.children.values[buttons[j].node] == Cell(0, j)
      invariant forall k | k in old(b.children.values) :: k in b.children.values && b.children.values[k] == old(b.children.values)[k]
    {
      var button := GridButton(b, i);
      buttons := buttons + [button];
      i := i + 1;
    }
  }

  /** One step of the comprehension: `box.grid(Button(text=labels[i]), 0, i)`. */
  method GridButton(b: GridingManager, i: nat) returns (button: Button)
    requires b.Valid() && i < 4
    modifies b
    ensures fresh(button) && fresh(button.node)
    ensures button.text == ButtonLabels[i] && !button.disabled && !button.state && !button.hasCallback
    ensures button.node.parent == GridParent(b)
    ensures b.Valid() && b.rows == Max(old(b.rows), i + 1) && b.columns == Max(old(b.columns), 1)
    ensures b.children.values == old(b.children.values)[button.node := Cell(0, i)]
  {
    button := new Button(ButtonLabels[i]);
    var _ := b.Grid(button.node, 0, i);
  }

  /** Freshly built buttons: enabled, off, and without a callback. */
  ghost predicate ButtonsIdle(buttons: seq<Button>)
    reads buttons
  {
    |buttons| == 4 && forall i | 0 <= i < 4 :: !buttons[i].disabled && !buttons[i].state && !buttons[i].hasCallback
  }

  /**
   * The buttons as `setup_display` leaves them: all off, split disabled
   * exactly with line-in, A/W enabled, and callbacks on speech, split and
   * graph only.
   */
  ghost predicate ButtonsReady(buttons: seq<Button>, lineIn: bool)
    requires |buttons| == 4
    reads buttons[0], buttons[1], buttons[2], buttons[3]
  {
    && !buttons[0].state && !buttons[1].state && !buttons[2].state && !buttons[3].state
    && buttons[SplitBtn].disabled == lineIn && !buttons[AwBtn].disabled
    && !buttons[AwBtn].hasCallback && buttons[SpeechBtn].hasCallback
    && buttons[SplitBtn].hasCallback && buttons[GraphBtn].hasCallback
  }

  /**
   * The callbacks `setup_display` binds (speech, split and graph; A/W has
   * none), and the split button disabled when line-in feeds channel 1.
   */
  method WireButtons(buttons: seq<Button>, lineIn: bool)
    requires |buttons| == 4 && ButtonsIdle(buttons)
    requires forall i, j | 0 <= i < j < 4 :: buttons[i].node != buttons[j].node
    modifies buttons[SpeechBtn], buttons[SplitBtn], buttons[GraphBtn]
    ensures ButtonsReady(buttons, lineIn)
  {
    buttons[SpeechBtn].hasCallback := true;
    buttons[SplitBtn].hasCallback := true;
    buttons[GraphBtn].hasCallback := true;
    buttons[SplitBtn].disabled := lineIn;
  }

  /**
   * The two indicators of `setup_display`, both labelled from the
   * `source_1_label` setting (defaults "1" and "2"), registered at (1, 0)
   * and (2, 0).
   */
  method GridIndicators(b: GridingManager, source1Label: Option<string>) returns (ind1: Indicator, ind2: Indicator)
    requires b.Valid()
    modifies b
    ensures b.Valid() && b.rows == Max(old(b.rows), 1) && b.columns == Max(old(b.columns), 3)
    ensures fresh(ind1) && fresh(ind1.node) && fresh(ind2) && fresh(ind2.node) && ind1.node != ind2.node
    ensures ind1.labelText == LabelOr(source1Label, "1") && ind2.labelText == LabelOr(source1Label, "2")
    ensures ind1.state == Mid && ind2.state == Mid
    ensures b.children.values == old(b.children.values)[ind1.node := Cell(1, 0)][ind2.node := Cell(2, 0)]
  {
    ind1 := new Indicator(LabelOr(source1Label, "1"), 2);
    var _ := b.Grid(ind1.node, 1, 0);
    ind2 := new Indicator(LabelOr(source1Label, "2"), 2);
    var _ := b.Grid(ind2.node, 2, 0);
  }

  /** The graph, registered at (1, 2), and the VU meter down column 3. */
  method GridGraphAndMeter(b: GridingManager, config: Config) returns (graph: Graph, vu: VUMeter)
    requires b.Valid()
    modifies b
    ensures b.Valid() && b.rows == Max(old(b.rows), 3) && b.columns == Max(old(b.columns), 4)
    ensures fresh(graph) && fresh(graph.node) && fresh(vu) && fresh(vu.node) && graph.node != vu.node
    ensures graph.Valid() && graph.graphSamples == config.graphSamples && graph.dataSets == [[], []]
    ensures vu.curr == [48.0, 48.0] && vu.avg == [48.0, 48.0] && vu.loud == config.loudMusic && vu.quiet == config.quietMusic
    ensures b.children.values == old(b.children.values)[graph.node := Cell(1, 2)][vu.node := Cell(3, 0)]
  {
    graph := new Graph(config.graphSamples, 2, 2);
    var _ := b.Grid(graph.node, 1, 2);
    vu := new VUMeter(config.loudMusic, config.quietMusic, 4);
    var _ := b.Grid(vu.node, 3, 0);
  }

  /** The buttons sit down column 0 of the registrations `m`. */
  ghost predicate ButtonsAt(m: map<Gridable, Cell>, buttons: seq<Button>)
  {
    |buttons| == 4 && forall i | 0 <= i < 4 :: buttons[i].node in m && m[buttons[i].node] == Cell(0, i)
  }

  /** Registering a widget that is not a button leaves the buttons where they were. */
  lemma ButtonsStay(m: map<Gridable, Cell>, buttons: seq<Button>, k: Gridable, c: Cell)
    requires ButtonsAt(m, buttons) && forall i | 0 <= i < 4 :: buttons[i].node != k
    ensures ButtonsAt(m[k := c], buttons)
  {
  }

  /**
   * The fixed widgets in the registrations `m`: the buttons down column 0
   * and the VU meter at (3, 0), none of them one of the centre panes `c0`,
   * `c1` and `c2`.
   */
  ghost predicate FixedAt(m: map<Gridable, Cell>, buttons: seq<Button>, vuNode: Gridable, c0: Gridable, c1: Gridable, c2: Gridable)
  {
    && ButtonsAt(m, buttons)
    && (forall i | 0 <= i < 4 :: buttons[i].node != c0 && buttons[i].node != c1 && buttons[i].node != c2)
    && vuNode in m && m[vuNode] == Cell(3, 0) && vuNode != c0 && vuNode != c1 && vuNode != c2
  }

  /**
   * The layout invariant on explicit widgets: a valid 4 x 4 grid with the
   * fixed widgets in place and three distinct centre panes.
   */
  ghost predicate LaidOut(box: GridingManager, buttons: seq<Button>, vuNode: Gridable, c0: Gridable, c1: Gridable, c2: Gridable)
    reads box
  {
    && box.Valid() && box.rows == 4 && box.columns == 4
    && c0 != c1 && c0 != c2 && c1 != c2
    && FixedAt(box.children.values, buttons, vuNode, c0, c1, c2)
  }

  /** Each button carries its label and has `box` as its parent. */
  ghost predicate ButtonsNamed(box: GridingManager, buttons: seq<Button>)
    requires |buttons| == 4
    reads buttons[0].node, buttons[1].node, buttons[2].node, buttons[3].node
  {
    forall i | 0 <= i < 4 :: buttons[i].text == ButtonLabels[i] && buttons[i].node.parent == GridParent(box)
  }

  /**
   * The widgets as `setup_display` leaves them: the buttons labelled,
   * parented to `box` and ready, both indicators labelled from the
   * `source_1_label` setting and at `Mid`, the graph empty and the VU
   * meter at its initial levels with the music thresholds.
   */
  ghost predicate Initial(box: GridingManager, buttons: seq<Button>, ind1: Indicator, ind2: Indicator,
                          graph: Graph, vu: VUMeter, config: Config)
    requires |buttons| == 4
    reads buttons[0], buttons[1], buttons[2], buttons[3]
    reads buttons[0].node, buttons[1].node, buttons[2].node, buttons[3].node
    reads ind1, ind2, graph, vu
  {
    && ButtonsNamed(box, buttons) && ButtonsReady(buttons, config.lineIn)
    && ind1.labelText == LabelOr(config.source1Label, "1") && ind2.labelText == LabelOr(config.source1Label, "2")
    && ind1.state == Mid && ind2.state == Mid
    && graph.Valid() && graph.graphSamples == config.graphSamples && graph.dataSets == [[], []]
    && vu.curr == [48.0, 48.0] && vu.avg == [48.0, 48.0] && vu.loud == config.loudMusic && vu.quiet == config.quietMusic
  }

  /**
   * The box `setup_display` builds before it goes on the root window: the
   * four buttons down column 0 (speech, split and graph with callbacks,
   * split disabled with line-in), the indicators, the graph and the VU
   * meter down column 3, in a 4 x 4 grid.
   */
  method BuildBox(config: Config)
    returns (box: GridingManager, buttons: seq<Button>, ind1: Indicator, ind2: Indicator, graph: Graph, vu: VUMeter)
    ensures fresh(box) && fresh(box.node) && fresh(ind1.node) && fresh(ind2.node) && fresh(graph.node)
    ensures LaidOut(box, buttons, vu.node, ind1.node, ind2.node, graph.node)
    ensures forall i | 0 <= i < 4 :: buttons[i].node != box.node
    ensures Initial(box, buttons, ind1, ind2, graph, vu, config)
  {
    box := new GridingManager();
    buttons := GridButtons(box);
    WireButtons(buttons, config.lineIn);
    ind1, ind2, graph, vu := GridPanes(box, buttons, config);
  }

  /**
   * `setup_display` up to its closing `reflow`: the root window on the
   * screen, the box built as above and attached to the root window.
   */
  method SetupDisplay(config: Config, screen: Size)
    returns (root: RootWindow, box: GridingManager, buttons: seq<Button>, ind1: Indicator, ind2: Indicator, graph: Graph, vu: VUMeter)
    ensures fresh(root) && fresh(box) && fresh(ind1.node) && fresh(ind2.node) && fresh(graph.node)
    ensures root.children == [TopGrid(box)] && root.screen == screen && root.running
    ensures LaidOut(box, buttons, vu.node, ind1.node, ind2.node, graph.node)
    ensures Initial(box, buttons, ind1, ind2, graph, vu, config)
  {
    root := new RootWindow(screen);
    box, buttons, ind1, ind2, graph, vu := BuildBox(config);
    var _ := root.AddChild(AttachManager(box));
  }

  /**
   * The rest of the box after the buttons: the indicators, the graph and
   * the VU meter, which leave the buttons where they are.
   */
  method GridPanes(box: GridingManager, buttons: seq<Button>, config: Config)
    returns (ind1: Indicator, ind2: Indicator, graph: Graph, vu: VUMeter)
    requires box.Valid() && box.rows == 4 && box.columns == 1 && ButtonsAt(box.children.values, buttons)
    modifies box
    ensures fresh(ind1.node) && fresh(ind2.node) && fresh(graph.node) && fresh(vu.node)
    ensures LaidOut(box, buttons, vu.node, ind1.node, ind2.node, graph.node)
    ensures ind1.labelText == LabelOr(config.source1Label, "1") && ind2.labelText == LabelOr(config.source1Label, "2")
    ensures ind1.state == Mid && ind2.state == Mid
    ensures graph.Valid() && graph.graphSamples == config.graphSamples && graph.dataSets == [[], []]
    ensures vu.curr == [48.0, 48.0] && vu.avg == [48.0, 48.0] && vu.loud == config.loudMusic && vu.quiet == config.quietMusic
  {
    ghost var m0 := box.children.values;
    ind1, ind2 := GridIndicators(box, config.source1Label);
    ButtonsStay(m0, buttons, ind1.node, Cell(1, 0));
    ButtonsStay(m0[ind1.node := Cell(1, 0)], buttons, ind2.node, Cell(2, 0));
    ghost var m1 := box.children.values;
    graph, vu := GridGraphAndMeter(box, config);
    ButtonsStay(m1, buttons, graph.node, Cell(1, 2));
    ButtonsStay(m1[graph.node := Cell(1, 2)], buttons, vu.node, Cell(3, 0));
  }

  // ---------------------------------------------------------------- the meter

  class Meter {
    const config: Config
    const root: RootWindow
    const box: GridingManager
    const buttons: seq<Button>
    const indicators: seq<Indicator>
    const graph: Graph
    const vu: VUMeter
    var loud: real
    var quiet: real

    /** The widget behind each centre pane. */
    function PaneNode(p: CentrePane): Gridable
      requires |indicators| == 2
    {
      match p
      case Ind0 => indicators[0].node
      case Ind1 => indicators[1].node
      case GraphPane => graph.node
    }

    function CentreNodes(): set<Gridable>
      requires |indicators| == 2
    {
      {PaneNode(Ind0), PaneNode(Ind1), PaneNode(GraphPane)}
    }

    ghost predicate CentreDistinct()
    {
      && |indicators| == 2
      && PaneNode(Ind0) != PaneNode(Ind1) && PaneNode(Ind0) != PaneNode(GraphPane)
      && PaneNode(Ind1) != PaneNode(GraphPane)
    }

    /**
     * The meter's invariant: the layout below, and each channel's graph
     * line within its bound and its two VU entries.
     */
    ghost predicate Valid()
      reads this, box, graph, vu
    {
      LayoutValid() && LevelsValid()
    }

    /**
     * The layout: four buttons down column 0 and the VU meter in column 3
     * stay registered, the grid is 4 x 4, and the three centre panes are
     * distinct widgets.
     */
    ghost predicate LayoutValid()
      reads this, box
    {
      |indicators| == 2 && LaidOut(box, buttons, vu.node, PaneNode(Ind0), PaneNode(Ind1), PaneNode(GraphPane))
    }

    /** The buttons and the VU meter sit at their cells in `m`, apart from the centre panes. */
    ghost predicate FixedPlaced(m: map<Gridable, Cell>)
      requires |indicators| == 2
    {
      FixedAt(m, buttons, vu.node, PaneNode(Ind0), PaneNode(Ind1), PaneNode(GraphPane))
    }

    ghost predicate LevelsValid()
      reads graph, vu
    {
      && graph.Valid() && graph.graphSamples == config.graphSamples
      && |vu.curr| == 2 && |vu.avg| == 2
    }

    /** Speech, split and graph have callbacks; A/W has none. */
    predicate Wired()
      requires |buttons| == 4
      reads buttons
    {
      !buttons[AwBtn].hasCallback && buttons[SpeechBtn].hasCallback
      && buttons[SplitBtn].hasCallback && buttons[GraphBtn].hasCallback
    }

    /** `CONFIG.get('line_in') or self.buttons[SPLIT_BTN].state` */
    predicate Dual()
      requires |buttons| == 4
      reads buttons[SplitBtn]
    {
      config.lineIn || buttons[SplitBtn].state
    }

    /** The layout `reflow` produces for the current button states. */
    function Table(): map<CentrePane, Slot>
      requires |buttons| == 4
      reads buttons[SplitBtn], buttons[GraphBtn]
    {
      ReflowTable(Dual(), buttons[GraphBtn].state)
    }

    /** Registrations `m` after `grid` calls for the panes of `t`, in the order ind0, ind1, graph. */
    function Registered(m: map<Gridable, Cell>, t: map<CentrePane, Slot>): map<Gridable, Cell>
      requires |indicators| == 2
    {
      var m1 := if Ind0 in t then m[PaneNode(Ind0) := t[Ind0].cell] else m;
      var m2 := if Ind1 in t then m1[PaneNode(Ind1) := t[Ind1].cell] else m1;
      if GraphPane in t then m2[PaneNode(GraphPane) := t[GraphPane].cell] else m2
    }

    /** Re-registering the centre panes leaves the buttons and the VU meter where they were. */
    lemma FixedStayPlaced(m: map<Gridable, Cell>, t: map<CentrePane, Slot>)
      requires CentreDistinct() && FixedPlaced(m)
      ensures FixedPlaced(Registered(m - CentreNodes(), t))
    {
      RegisteredFollowsTable(m, t);
    }

    /**
     * What a reflowed registration holds: each pane of the table at its
     * cell, no other centre pane, and every other widget where it was.
     */
    lemma RegisteredFollowsTable(m: map<Gridable, Cell>, t: map<CentrePane, Slot>)
      requires CentreDistinct()
      ensures var r := Registered(m - CentreNodes(), t);
        && (forall p: CentrePane :: p in t ==> PaneNode(p) in r && r[PaneNode(p)] == t[p].cell)
        && (forall p: CentrePane :: p !in t ==> PaneNode(p) !in r)
        && (forall k | k in m && k !in CentreNodes() :: k in r && r[k] == m[k])
        && r.Keys <= m.Keys + CentreNodes()
    {
      PanesFollowTable(m, t);
    }

    /** The centre panes of a reflowed registration: exactly those of the table, each at its cell. */
    lemma PanesFollowTable(m: map<Gridable, Cell>, t: map<CentrePane, Slot>)
      requires CentreDistinct()
      ensures var r := Registered(m - CentreNodes(), t);
        && (forall p: CentrePane :: p in t ==> PaneNode(p) in r && r[PaneNode(p)] == t[p].cell)
        && (forall p: CentrePane :: p !in t ==> PaneNode(p) !in r)
    {
      var r := Registered(m - CentreNodes(), t);
      forall p: CentrePane
        ensures p in t ==> PaneNode(p) in r && r[PaneNode(p)] == t[p].cell
        ensures p !in t ==> PaneNode(p) !in r
      {
        match p
        case Ind0 =>
        case Ind1 =>
        case GraphPane =>
      }
    }

    /** The spans and parent `reflow` gives pane `p` when the table places it. */
    ghost predicate SpannedAs(t: map<CentrePane, Slot>, p: CentrePane)
      requires |indicators| == 2
      reads PaneNode(p)
    {
      p in t ==>
        PaneNode(p).colSpan == t[p].colSpan && PaneNode(p).rowSpan == t[p].rowSpan
        && PaneNode(p).parent == GridParent(box)
    }

    ghost predicate Spanned(t: map<CentrePane, Slot>)
      requires |indicators| == 2
      reads PaneNode(Ind0), PaneNode(Ind1), PaneNode(GraphPane)
    {
      SpannedAs(t, Ind0) && SpannedAs(t, Ind1) && SpannedAs(t, GraphPane)
    }
    /**
     * `__init__` with `setup_display` up to its closing `reflow`: the
     * widgets as built, the box on the root window and the music
     * thresholds.
     */
    constructor (config: Config, screen: Size)
      ensures Valid() && fresh(root) && fresh(box)
      ensures this.config == config
      ensures fresh(PaneNode(Ind0)) && fresh(PaneNode(Ind1)) && fresh(PaneNode(GraphPane))
      ensures root.children == [TopGrid(box)] && root.screen == screen && root.running
      ensures Initial(box, buttons, indicators[0], indicators[1], graph, vu, config)
      ensures loud == config.loudMusic && quiet == config.quietMusic
    {
      this.config := config;
      var r, b, bs, ind1, ind2, gr, v := SetupDisplay(config, screen);
      root, box := r, b;
      buttons := bs;
      indicators := [ind1, ind2];
      graph, vu := gr, v;
      loud := config.loudMusic;
      quiet := config.quietMusic;
    }

    /**
     * `Meter()`: the constructor, then the `reflow` that ends
     * `setup_display`, which lays the centre out for line-in alone since
     * no button is on yet.
     */
    static method Open(config: Config, screen: Size) returns (m: Meter)
      ensures fresh(m) && m.Valid() && fresh(m.root) && fresh(m.box)
      ensures m.root.children == [TopGrid(m.box)] && m.root.screen == screen && m.root.running
      ensures Initial(m.box, m.buttons, m.indicators[0], m.indicators[1], m.graph, m.vu, config) && m.Wired()
      ensures m.Table() == ReflowTable(config.lineIn, false) && m.Spanned(m.Table())
      ensures forall p: CentrePane :: p in m.Table() ==>
        m.PaneNode(p) in m.box.children.values && m.box.children.values[m.PaneNode(p)] == m.Table()[p].cell
      ensures forall p: CentrePane :: p !in m.Table() ==> m.PaneNode(p) !in m.box.children.values
      ensures m.loud == config.loudMusic && m.quiet == config.quietMusic
    {
      m := new Meter(config, screen);
      m.FirstReflow();
    }

    /**
     * The `reflow` that ends `setup_display`: with no button on, the
     * centre takes the layout of the table for line-in alone.
     */
    method FirstReflow()
      requires Valid() && !buttons[SplitBtn].state && !buttons[GraphBtn].state
      modifies box, PaneNode(Ind0), PaneNode(Ind1), PaneNode(GraphPane)
      ensures Valid() && Table() == ReflowTable(config.lineIn, false) && Spanned(Table())
      ensures forall p: CentrePane :: p in Table() ==>
        PaneNode(p) in box.children.values && box.children.values[PaneNode(p)] == Table()[p].cell
      ensures forall p: CentrePane :: p !in Table() ==> PaneNode(p) !in box.children.values
    {
      ghost var before := box.children.values;
      Reflow();
      PanesFollowTable(before, Table());
    }

    // ------------------------------------------------------------ callbacks

    /**
     * `on_speech_tog_click`: both the meter and the VU meter take the
     * speech thresholds when the button is on, the music ones otherwise.
     */
    method OnSpeechTogClick(state: bool)
      modifies this`loud, this`quiet, vu`loud, vu`quiet
      ensures state ==> loud == config.loudSpeech && quiet == config.quietSpeech
      ensures !state ==> loud == config.loudMusic && quiet == config.quietMusic
      ensures vu.loud == loud && vu.quiet == quiet
    {
      if state {
        vu.loud := config.loudSpeech;
        vu.quiet := config.quietSpeech;
        loud := config.loudSpeech;
        quiet := config.quietSpeech;
      } else {
        vu.loud := config.loudMusic;
        vu.quiet := config.quietMusic;
        loud := config.loudMusic;
        quiet := config.quietMusic;
      }
    }

    /** The line-in or split arm of `reflow`: both indicators in the upper half, then the graph or the lower half. */
    method LayOutDual(showGraph: bool)
      requires CentreDistinct() && box.Valid() && box.rows == 4 && box.columns == 4
      modifies box, PaneNode(Ind0), PaneNode(Ind1), PaneNode(GraphPane)
      ensures box.Valid() && box.rows == 4 && box.columns == 4
      ensures box.children.values == Registered(old(box.children.values), ReflowTable(true, showGraph))
      ensures Spanned(ReflowTable(true, showGraph))
      ensures !showGraph ==> unchanged(PaneNode(GraphPane))
    {
      if showGraph {
        DualWithGraph();
      } else {
        DualHalves();
      }
    }

    /** Both indicators side by side in the upper half, the graph in the lower half. */
    method DualWithGraph()
      requires CentreDistinct() && box.Valid() && box.rows == 4 && box.columns == 4
      modifies box, PaneNode(Ind0), PaneNode(Ind1), PaneNode(GraphPane)
      ensures box.Valid() && box.rows == 4 && box.columns == 4
      ensures box.children.values == Registered(old(box.children.values), ReflowTable(true, true))
      ensures Spanned(ReflowTable(true, true))
    {
      var i0, i1, g := PaneNode(Ind0), PaneNode(Ind1), PaneNode(GraphPane);
      i0.rowSpan := 2;
      i1.rowSpan := 2;
      i0.colSpan := 1;
      i1.colSpan := 1;
      var _ := box.Grid(i0, 1, 0);
      var _ := box.Grid(i1, 2, 0);
      g.rowSpan := 2;
      g.colSpan := 2;
      var _ := box.Grid(g, 1, 2);
    }

    /** One indicator in each half, each across both columns. */
    method DualHalves()
      requires CentreDistinct() && box.Valid() && box.rows == 4 && box.columns == 4
      modifies box, PaneNode(Ind0), PaneNode(Ind1)
      ensures box.Valid() && box.rows == 4 && box.columns == 4
      ensures box.children.values == Registered(old(box.children.values), ReflowTable(true, false))
      ensures Spanned(ReflowTable(true, false))
    {
      var i0, i1 := PaneNode(Ind0), PaneNode(Ind1);
      i0.rowSpan := 2;
      i1.rowSpan := 2;
      i0.colSpan := 2;
      i1.colSpan := 2;
      var _ := box.Grid(i0, 1, 0);
      var _ := box.Grid(i1, 1, 2);
    }

    /** The single-input arm of `reflow`: the first indicator across both columns, over the graph or full height. */
    method LayOutSingle(showGraph: bool)
      requires CentreDistinct() && box.Valid() && box.rows == 4 && box.columns == 4
      modifies box, PaneNode(Ind0), PaneNode(GraphPane)
      ensures box.Valid() && box.rows == 4 && box.columns == 4
      ensures box.children.values == Registered(old(box.children.values), ReflowTable(false, showGraph))
      ensures Spanned(ReflowTable(false, showGraph))
      ensures !showGraph ==> unchanged(PaneNode(GraphPane))
    {
      var i0, g := PaneNode(Ind0), PaneNode(GraphPane);
      i0.colSpan := 2;
      var _ := box.Grid(i0, 1, 0);
      if showGraph {
        i0.rowSpan := 2;
        g.rowSpan := 2;
        g.colSpan := 2;
        var _ := box.Grid(g, 1, 2);
      } else {
        i0.rowSpan := 4;
      }
    }

    /**
     * `reflow`: unregisters the three centre panes and registers again
     * those the table lists for the current button states, with the
     * table's cells and spans; nothing else in the grid changes.
     */
    method Reflow()
      requires Valid()
      modifies box, PaneNode(Ind0), PaneNode(Ind1), PaneNode(GraphPane)
      ensures Valid()
      ensures box.children.values == Registered(old(box.children.values) - CentreNodes(), Table())
      ensures Spanned(Table())
      ensures Ind1 !in Table() ==> unchanged(PaneNode(Ind1))
      ensures GraphPane !in Table() ==> unchanged(PaneNode(GraphPane))
    {
      ghost var before := box.children.values;
      var dual := config.lineIn || buttons[SplitBtn].state;
      var showGraph := buttons[GraphBtn].state;
      ClearCentre();
      LayOut(dual, showGraph);
      FixedStayPlaced(before, ReflowTable(dual, showGraph));
    }

    /** The three `remove` calls that open `reflow`. */
    method ClearCentre()
      requires CentreDistinct() && box.Valid() && box.rows == 4 && box.columns == 4
      modifies box
      ensures box.Valid() && box.rows == 4 && box.columns == 4
      ensures box.children.values == old(box.children.values) - CentreNodes()
    {
      ghost var m0 := box.children.values;
      box.Remove(PaneNode(Ind0));
      ghost var m1 := box.children.values;
      box.Remove(PaneNode(Ind1));
      ghost var m2 := box.children.values;
      box.Remove(PaneNode(GraphPane));
      MinusThree(m0, m1, m2, box.children.values, PaneNode(Ind0), PaneNode(Ind1), PaneNode(GraphPane));
    }

    lemma MinusThree<K, V>(m0: map<K, V>, m1: map<K, V>, m2: map<K, V>, m3: map<K, V>, a: K, b: K, c: K)
      requires m1 == m0 - {a} && m2 == m1 - {b} && m3 == m2 - {c}
      ensures m3 == m0 - {a, b, c}
    {
    }

    /** The `grid` calls of `reflow` for the chosen case. */
    method LayOut(dual: bool, showGraph: bool)
      requires CentreDistinct() && box.Valid() && box.rows == 4 && box.columns == 4
      modifies box, PaneNode(Ind0), PaneNode(Ind1), PaneNode(GraphPane)
      ensures box.Valid() && box.rows == 4 && box.columns == 4
      ensures box.children.values == Registered(old(box.children.values), ReflowTable(dual, showGraph))
      ensures Spanned(ReflowTable(dual, showGraph))
      ensures !dual ==> unchanged(PaneNode(Ind1))
      ensures !showGraph ==> unchanged(PaneNode(GraphPane))
    {
      if dual {
        LayOutDual(showGraph);
      } else {
        LayOutSingle(showGraph);
      }
    }

    /** `on_graph_tog_click` and `on_split_tog_click`: both re-lay the centre out. */
    method OnLayoutTogClick()
      requires Valid()
      modifies box, PaneNode(Ind0), PaneNode(Ind1), PaneNode(GraphPane)
      ensures Valid()
      ensures box.children.values == Registered(old(box.children.values) - CentreNodes(), Table())
      ensures Spanned(Table())
    {
      Reflow();
    }

    /**
     * An event delivered to button `i`: the button reacts as `Button.event`
     * does, and when it calls back, the callback `setup_display` bound to
     * it runs with the new state.
     */
    method ButtonEvent(i: nat, ev: Event)
      requires Valid() && i < 4 && Wired()
      modifies buttons[i], this`loud, this`quiet, vu`loud, vu`quiet
      modifies box, PaneNode(Ind0), PaneNode(Ind1), PaneNode(GraphPane)
      ensures Valid()
      ensures buttons[i].state == PressedState(buttons[i].disabled, old(buttons[i].state), ev.kind)
      ensures buttons[i].disabled == old(buttons[i].disabled) && buttons[i].hasCallback == old(buttons[i].hasCallback)
      ensures var pressed := ev.kind == MouseButtonDown && !buttons[i].disabled;
        && (pressed && i == SpeechBtn ==>
              loud == (if buttons[i].state then config.loudSpeech else config.loudMusic)
              && quiet == (if buttons[i].state then config.quietSpeech else config.quietMusic))
        && (!(pressed && i == SpeechBtn) ==> loud == old(loud) && quiet == old(quiet))
        && (pressed && (i == SplitBtn || i == GraphBtn) ==>
              box.children.values == Registered(old(box.children.values) - CentreNodes(), Table()))
        && (!(pressed && (i == SplitBtn || i == GraphBtn)) ==> box.children == old(box.children))
      ensures var pressed := ev.kind == MouseButtonDown && !buttons[i].disabled;
        && (pressed && i == SpeechBtn ==> vu.loud == loud && vu.quiet == quiet)
        && (!(pressed && i == SpeechBtn) ==> vu.loud == old(vu.loud) && vu.quiet == old(vu.quiet))
        && (pressed && (i == SplitBtn || i == GraphBtn) ==> Spanned(Table()))
        && (!(pressed && (i == SplitBtn || i == GraphBtn)) ==>
              unchanged(PaneNode(Ind0), PaneNode(Ind1), PaneNode(GraphPane)))
    {
      var call := buttons[i].Event(ev);
      if call.Some? {
        if i == SpeechBtn {
          OnSpeechTogClick(call.value);
        } else {
          OnLayoutTogClick();
        }
      }
    }

    // ------------------------------------------------------------ levels

    /**
     * What the meter shows for channel `c`: the indicator's state and the
     * VU meter's average both follow the minimum of the newest
     * `average_samples` levels of the channel's graph line.
     */
    ghost predicate Shows(c: nat)
      requires c < 2 && |indicators| == 2
      reads this, graph, indicators[c], vu
    {
      var w := if |graph.dataSets| == 2 then PyTail(graph.dataSets[c], config.averageSamples) else [];
      && w != [] && |vu.avg| == 2
      && indicators[c].state == Classify(Aggregate(Minimum, w), quiet, loud)
      && vu.avg[c] == Aggregate(Minimum, w)
    }

    /**
     * `add_value`: the graph line of the channel takes the level; the
     * channel's average is the minimum of the last `average_samples`
     * entries of that line (all of it when the setting is 0), so it never
     * exceeds the new level; the indicator is reclassified (and marked for
     * redrawing only if its state changes) and the VU entries of this
     * channel alone are updated. `min` of an empty line raises ValueError,
     * which happens exactly when the graph keeps no samples.
     */
    method AddValue(val: real, index: nat) returns (r: Outcome)
      requires LevelsValid() && |indicators| == 2 && index < 2
      modifies graph`dataSets, indicators[index], vu`curr, vu`avg, vu`dirty
      ensures LevelsValid()
      ensures graph.dataSets[index] == Recent(old(graph.dataSets[index]) + [val], config.graphSamples)
      ensures graph.dataSets[1 - index] == old(graph.dataSets[1 - index])
      ensures index == 0 ==> graph.dataSets[1] == old(graph.dataSets[1]) && vu.curr[1] == old(vu.curr[1])
      ensures index == 1 ==> graph.dataSets[0] == old(graph.dataSets[0]) && vu.curr[0] == old(vu.curr[0])
      ensures r.Fail? <==> config.graphSamples == 0
      ensures r.Fail? ==> r.error == ValueError && unchanged(indicators[index], vu)
      ensures r.Pass? ==>
        var avg := Aggregate(Minimum, PyTail(graph.dataSets[index], config.averageSamples));
        && avg <= val
        && indicators[index].state == Classify(avg, quiet, loud)
        && indicators[index].dirty == (old(indicators[index].dirty) || indicators[index].state != old(indicators[index].state))
        && vu.curr == old(vu.curr)[index := val] && vu.avg == old(vu.avg)[index := avg] && vu.dirty
      ensures r.Pass? ==> Shows(index)
      ensures indicators[0] != indicators[1] && old(Shows(1 - index)) ==> Shows(1 - index)
    {
      graph.Feed(index, val);
      if indicators[0] != indicators[1] {
        ShowsKept(1 - index);
      }
      var line := graph.dataSets[index];
      var window := PyTail(line, config.averageSamples);
      if window == [] {
        return Fail(ValueError);
      }
      assert line[|line| - 1] == val && window[|window| - 1] == val;
      MinimumAtMostNewest(window);
      ShowLevel(index, val);
      r := Pass;
    }

    /**
     * The display half of `add_value`: the minimum of the channel's window
     * becomes the indicator's state (marked for redrawing only on a change)
     * and the VU meter's average, beside the new level.
     */
    method ShowLevel(index: nat, val: real)
      requires LevelsValid() && |indicators| == 2 && index < 2
      requires PyTail(graph.dataSets[index], config.averageSamples) != []
      modifies indicators[index], vu`curr, vu`avg, vu`dirty
      ensures LevelsValid()
      ensures var avg := Aggregate(Minimum, PyTail(graph.dataSets[index], config.averageSamples));
        && indicators[index].state == Classify(avg, quiet, loud)
        && indicators[index].dirty == (old(indicators[index].dirty) || indicators[index].state != old(indicators[index].state))
        && vu.curr == old(vu.curr)[index := val] && vu.avg == old(vu.avg)[index := avg] && vu.dirty
      ensures Shows(index)
      ensures indicators[0] != indicators[1] ==> indicators[1 - index].state == old(indicators[1 - index].state)
      ensures indicators[0] != indicators[1] && old(Shows(1 - index)) ==> Shows(1 - index)
      ensures index == 0 ==> vu.curr[1] == old(vu.curr[1])
      ensures index == 1 ==> vu.curr[0] == old(vu.curr[0])
    {
      var avg := Aggregate(Minimum, PyTail(graph.dataSets[index], config.averageSamples));
      var state := Classify(avg, quiet, loud);
      if indicators[index].state != state {
        indicators[index].state := state;
        indicators[index].dirty := true;
      }
      vu.curr := vu.curr[index := val];
      vu.avg := vu.avg[index := avg];
      vu.dirty := true;
    }

    /** The display of channel `c` stays as it was when none of what it shows has changed. */
    twostate lemma ShowsKept(c: nat)
      requires c < 2 && unchanged(this) && |indicators| == 2
      requires |graph.dataSets| == 2 && old(|graph.dataSets|) == 2 && graph.dataSets[c] == old(graph.dataSets[c])
      requires |vu.avg| == 2 && old(|vu.avg|) == 2 && vu.avg[c] == old(vu.avg[c])
      requires indicators[c].state == old(indicators[c].state)
      ensures old(Shows(c)) ==> Shows(c)
    {
    }

    /**
     * One iteration of `read_stream1` on a block of samples: each channel's
     * graph line takes the levels `Stream1Feeds` routes to it, and the
     * channel's current VU value is the last of them.
     */
    method ReadStream1Step(raw: Signal, num: Numerics) returns (r: Outcome)
      requires Valid() && |raw| > 0 && FiltersKeepLength(num)
      modifies graph`dataSets, vu`curr, vu`avg, vu`dirty
      modifies indicators[0], indicators[1]
      ensures Valid()
      ensures r.Fail? <==> config.graphSamples == 0
      ensures r.Pass? ==>
        var feeds := Stream1Feeds(config.lineIn, old(buttons[SplitBtn].state), old(buttons[AwBtn].state), raw, num);
        var l0, l1 := ChannelLevels(feeds, 0), ChannelLevels(feeds, 1);
        && graph.dataSets[0] == Recent(old(graph.dataSets[0]) + l0, config.graphSamples)
        && graph.dataSets[1] == Recent(old(graph.dataSets[1]) + l1, config.graphSamples)
        && vu.curr[0] == (if l0 == [] then old(vu.curr[0]) else l0[|l0| - 1])
        && vu.curr[1] == (if l1 == [] then old(vu.curr[1]) else l1[|l1| - 1])
      ensures r.Pass? ==> Shows(0) && (buttons[SplitBtn].state || !config.lineIn ==> Shows(1))
    {
      var split := buttons[SplitBtn].state;
      var b := ReadBlock(buttons[AwBtn].state, raw, num);
      Stream1Routing(config.lineIn, split, buttons[AwBtn].state, raw, num);
      if split {
        var lp := Level(num.lowPass(b.data), num);
        var hp := Level(num.highPass(b.data), num);
        r := FeedBands(lp, hp);
      } else {
        r := FeedBlock(b.db, !config.lineIn);
      }
    }

    /**
     * One iteration of `read_stream2` (started only with line-in): the
     * level of a block from the second stream goes to channel 1 alone.
     */
    method ReadStream2Step(raw: Signal, num: Numerics) returns (r: Outcome)
      requires Valid() && |raw| > 0 && FiltersKeepLength(num)
      modifies graph`dataSets, vu`curr, vu`avg, vu`dirty, indicators[1]
      ensures Valid()
      ensures r.Fail? <==> config.graphSamples == 0
      ensures var v := ReadBlock(buttons[AwBtn].state, raw, num).db;
        && graph.dataSets[1] == Recent(old(graph.dataSets[1]) + [v], config.graphSamples)
        && graph.dataSets[0] == old(graph.dataSets[0])
        && (r.Pass? ==> vu.curr == old(vu.curr)[1 := v] && Shows(1))
    {
      var b := ReadBlock(buttons[AwBtn].state, raw, num);
      r := AddValue(b.db, 1);
    }

    /** The split arm of `read_stream1`: the low band to channel 1, then the high band to channel 0. */
    method FeedBands(lp: real, hp: real) returns (r: Outcome)
      requires LevelsValid() && |indicators| == 2 && indicators[0] != indicators[1]
      modifies graph`dataSets, vu`curr, vu`avg, vu`dirty
      modifies indicators[0], indicators[1]
      ensures LevelsValid()
      ensures r.Fail? <==> config.graphSamples == 0
      ensures r.Pass? ==>
        && graph.dataSets[0] == Recent(old(graph.dataSets[0]) + [hp], config.graphSamples)
        && graph.dataSets[1] == Recent(old(graph.dataSets[1]) + [lp], config.graphSamples)
        && vu.curr[0] == hp && vu.curr[1] == lp
        && Shows(0) && Shows(1)
    {
      ghost var line0 := graph.dataSets[0];
      r := AddValue(lp, 1);
      if r.Fail? {
        return;
      }
      ghost var line1, curr1 := graph.dataSets[1], vu.curr[1];
      assert graph.dataSets[0] == line0 && curr1 == lp;
      r := AddValue(hp, 0);
      assert graph.dataSets[1] == line1 && vu.curr[1] == curr1;
    }

    /**
     * The other arm: the block's level to channel 0, then, when `flat`
     * (there is no second input), the flat line 48 to channel 1.
     */
    method FeedBlock(db: real, flat: bool) returns (r: Outcome)
      requires LevelsValid() && |indicators| == 2 && indicators[0] != indicators[1]
      modifies graph`dataSets, vu`curr, vu`avg, vu`dirty
      modifies indicators[0], indicators[1]
      ensures LevelsValid()
      ensures r.Fail? <==> config.graphSamples == 0
      ensures r.Pass? ==>
        && graph.dataSets[0] == Recent(old(graph.dataSets[0]) + [db], config.graphSamples)
        && vu.curr[0] == db && Shows(0)
      ensures r.Pass? && flat ==>
        && graph.dataSets[1] == Recent(old(graph.dataSets[1]) + [Silence], config.graphSamples)
        && vu.curr[1] == Silence && Shows(1)
      ensures r.Pass? && !flat ==> graph.dataSets[1] == old(graph.dataSets[1]) && vu.curr[1] == old(vu.curr[1])
    {
      r := AddValue(db, 0);
      if r.Fail? || !flat {
        return;
      }
      ghost var line0, curr0 := graph.dataSets[0], vu.curr[0];
      r := AddValue(Silence, 1);
      assert graph.dataSets[0] == line0 && vu.curr[0] == curr0;
    }
  }
}
