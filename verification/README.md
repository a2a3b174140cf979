# spl_pygame: a verified model of the sound-level meter's core

spl_pygame is a real-time sound-level meter written in Python with pygame.
It reads one or two audio streams and turns every block of samples into a
level in [0, 48]. In that range 0 is full scale and 48 is silence, or
anything 48 dB or more below full scale. The meter keeps a short
averaging window and a longer graph line of levels for each channel, and
classifies the rolling statistic as too quiet, acceptable or too loud
against a (quiet, loud) threshold pair. It shows the result on indicators,
a graph and a VU meter, and four toggle buttons control it: A-weighting,
speech thresholds, split mode and the graph.

The repository holds three versions of the meter, and this project models
the sequential core of each:

- `SPL_meter.py`, the oldest single-stream script: module `SplMeter`.
- `main.py`, the split-mode script that draws straight onto the screen:
  module `SplitMeter`.
- the widget-tree package under `meter/`:
  - `meter/grid.py` is modelled by `Grid` (the managers) and `Routing`
    (event routing through the tree);
  - `meter/widgets.py` by `Widgets`;
  - `meter/meter.py` by `MeterApp`.

Modules shared by the versions:

- `Levels` computes levels: the rms loop, the `get_db` clamp with its
  sentinel 48, the `read` data path and the routing of one block's levels
  to the channels.
  - `rms` is identical in all three versions (`SPL_meter.py:178-185`,
    `main.py:106-113`, `meter/meter.py:210-218`). So are `get_db` and
    `read` in `main.py` and `meter/meter.py`. Each is modelled once.
  - `SplMeter.ReadLevel` models the inlined `read` of `SPL_meter.py` and is
    proved to give the same level.
  - Square root, `log10` and the scipy filters are uninterpreted functions
    passed in a `Numerics` record. Only the arithmetic around them is
    verified.
- `History` holds the per-channel windows.
  - The bounded first-in first-out lists and Python's `s[-n:]`.
  - The rolling statistic as a named parameter: the mean in `main.py` and
    `SPL_meter.py`, the minimum in `meter/meter.py`.
  - The three-way classification, in which the quiet test is made first.
- `SideButtons` is the column of four buttons that `main.py` and
  `SPL_meter.py` hit-test against a mouse press.
- `Dicts` is Python's insertion-ordered `dict`, as the managers use it.
- `Base` and `Events` hold the result types, the Python exceptions and the
  pygame event kinds.

State that the source updates in place is modelled as classes with
`modifies` frames: the managers, the widgets and the three `Meter` objects.
The pure parts are functions and lemmas: cell arithmetic, levels, windows,
classification, the reflow table and the hit test.

In split mode, `meter/meter.py` band-filters the data that `read`
returned, and that data is already A-weighted when A/W is on
(`meter/meter.py:230-233`, `269-270`). `Levels.SplitBandsFollowAWeighting`
states this.

## Model

| member | source | states |
|---|---|---|
| `Dicts.Put` | meter/grid.py:170 | `d[k] = v` maps `k` to `v` and keeps every other entry. A present key keeps its place in the insertion order; a new key goes last. |
| `Dicts.Delete` | meter/grid.py:21-23 | `if k in d: del d[k]` takes out exactly `k`. Every other key stays, with its value and without duplicates, and a dictionary without `k` is left unchanged. |
| `Dicts.DeleteIdempotent` | meter/grid.py:21-23 | Removing a child twice is the same as removing it once. |
| `Dicts.DeleteKeepsOthers` | meter/grid.py:21-23 | Removing one child leaves every other child's presence and cell as they were. |
| `Grid.FloorDiv` | meter/grid.py:190-191 | Python's `//`: the quotient rounds toward negative infinity, for either sign of the divisor. |
| `Grid.SpanSizeExample` | meter/grid.py:185-194 | A 400 x 400 manager with a 4 x 4 grid gives a child spanning two columns and one row the size 200 x 100. |
| `Grid.SpanEndsBeforeNextCell` | meter/grid.py:180-194 | Along one axis, a child's floor-divided extent never runs past the start (true division) of the cell after its span. |
| `Grid.SpanInsideManager` | meter/grid.py:180-194 | Along one axis, a span that lies inside the grid starts and ends inside the manager. |
| `Grid.Gridable.constructor` | meter/grid.py:77-81 | A new widget has no parent, is visible and has the spans it was given. |
| `Grid.RemoveFirst` | meter/grid.py:288 | `list.remove` takes out exactly one copy of the element, every entry before its first occurrence stays where it was, so the copy removed is the first one, and the entries after it keep their order. |
| `Grid.GridingManager.constructor` | meter/grid.py:159-163 | A new manager has no children, zero rows and columns, and is itself a visible 1 x 1 widget without a parent. |
| `Grid.GridingManager.Remove` | meter/grid.py:21-23 | `remove` unregisters the child if it is present and does nothing otherwise. The other children keep their order and cells. `rows` and `columns` never shrink. |
| `Grid.GridingManager.Grid` | meter/grid.py:165-173 | `grid` records the child's cell and replaces any earlier one. It sets `rows`/`columns` to the maximum of the old value and `row + 1`/`column + 1`, makes the manager the child's parent and returns the child. Visibility and spans are unchanged. |
| `Grid.RegisteredChildIsPlaced` | meter/grid.py:175-194 | A registered child with a non-negative cell makes both counters positive, so `request_position` is `(W / columns * column, H / rows * row)` and `request_size` is `(W // columns * col_span, H // rows * row_span)`, with no division by zero. |
| `Grid.StrangerGetsWholeArea` | meter/grid.py:175-188 | An unregistered widget gets position (0, 0) and the manager's whole size. |
| `Grid.RegisteredChildFits` | meter/grid.py:175-194 | A registered child whose spans stay inside the grid is given a rectangle inside the manager. |
| `Grid.SingleManager.constructor` | meter/grid.py:18-19 | A new single manager has no children and no parent. |
| `Grid.SingleManager.SetC` | meter/grid.py:202-208 | `set_c` registers the child, becomes its parent and returns it. |
| `Grid.SingleManager.RequestSize` | meter/grid.py:214-216 | The child gets whatever the parent allots the manager. Without a parent this is an AttributeError. |
| `Grid.WrappedPaneFillsScreen` | meter/grid.py:210-216 | A pane wrapped by the root window sits at (0, 0) and gets the whole screen, which is what `RootWindow.request_size` returns for any child. |
| `Grid.SingleManager.RemoveChild` | meter/grid.py:218-220 | `remove_child` asks the parent to drop the whole wrapper. Without a parent this is an AttributeError; the wrapper's own children stay. |
| `Grid.FirstQuit` | meter/grid.py:256-261 | Gives the index of the first QUIT event (the length of the sequence when there is none). No earlier event is a QUIT. |
| `Grid.RootWindow.constructor` | meter/grid.py:233-240 | A new root window owns the screen, has an empty stack and is running. |
| `Grid.RootWindow.AddChild` | meter/grid.py:274-283 | A manager is pushed as it is. Any other widget is first wrapped in a fresh `SingleManager` that holds it. The root window becomes the parent of whatever is pushed. |
| `Grid.RootWindow.RemoveChild` | meter/grid.py:285-290 | Only a present child is removed, and only its first occurrence. Clearing a `GridingManager`'s parent fails the setter's assertion (AssertionError) after the child has left the stack. A `SingleManager`'s parent becomes None. |
| `Grid.RootWindow.Events` | meter/grid.py:251-267 | Polled events up to the first QUIT go, in order, to the topmost child only. A QUIT clears `running` and stops the processing. |
| `Routing.BroadcastReachesEveryPane` | meter/grid.py:47-57 | An event without a position reaches every pane of the tree exactly once, in child order, hidden or not, recursing into nested managers. |
| `Routing.PositionalReachesOnlyHits` | meter/grid.py:59-67 | A positional event reaches only visible panes whose rectangle (origin plus `request_position`, `request_size`) contains the point, each at most as often as it is placed. |
| `Routing.FlatPositionalIsExact` | meter/grid.py:59-67 | For a manager whose children are all panes, a positional event reaches exactly the visible children that contain the point, in order. |
| `Routing.SnapshotPanesAreChildren` | meter/grid.py:49 | The panes of a manager seen as a tree are its registered children, in dictionary order. |
| `Routing.FlatRouteOfSnapshot` | meter/grid.py:49-57 | Broadcasting over a manager of panes yields its children in dictionary order. |
| `Routing.DispatchTo` | meter/grid.py:50-67 | One loop step of `Manager.event` calls child `i` exactly when the routing says so. |
| `Routing.Dispatch` | meter/grid.py:47-67 | The loop of `Manager.event` over a live manager calls, in order, exactly the panes the reference routing gives. |
| `Widgets.PressTwiceRestores` | meter/widgets.py:54-59 | Two presses bring an enabled button back to its state. |
| `Widgets.OnlyEnabledPressesToggle` | meter/widgets.py:54-59 | The state changes if and only if the event is a press and the button is enabled. |
| `Widgets.Button.constructor` | meter/widgets.py:28-34 | A new button is enabled, off and has no callback. |
| `Widgets.Button.Event` | meter/widgets.py:54-61 | A press on an enabled button flips `state` once and, when there is a callback, calls it once with the new state. A disabled button or any other event changes nothing and calls nothing. |
| `Widgets.IndicatorColour` | meter/widgets.py:76 | Green exactly for MID, orange exactly for LOW, red otherwise. |
| `Widgets.LevelColourIsIndicatorColour` | main.py:389-394 | The colour the scripts pick directly from a level is the colour of the indicator state the package classifies that level into. |
| `Widgets.Indicator.constructor` | meter/widgets.py:70-73 | A new indicator is at MID with its label. |
| `Widgets.RecentDropHead` | meter/widgets.py:97-98 | Dropping the head of an over-long line keeps the same newest entries. |
| `Widgets.Graph.constructor` | meter/widgets.py:91-93 | A new graph has two empty lines. |
| `Widgets.Graph.Feed` | meter/widgets.py:95-98 | `feed` changes only line `set_num`, which ends as the newest `graph_samples` values in arrival order, oldest evicted first. |
| `Widgets.VUMeter.constructor` | meter/widgets.py:126-133 | A new VU meter has `avg = curr = [48, 48]` and the music thresholds. |
| `Widgets.ScaleLabelValues` | meter/widgets.py:175-176 | The thirteen scale labels read 0, 3, ..., 21, 24, 30, 36, 42, 48. |
| `Widgets.ScaleLabelsIncreaseWithinRange` | meter/widgets.py:175-176 | The labels strictly increase and stay within [0, 48]. |
| `Widgets.BarOffsetMonotone` | meter/widgets.py:135-143 | `get_y` before rounding never decreases as the level grows. |
| `Widgets.BarOffsetAnchors` | meter/widgets.py:135-143 | `get_y` before rounding is 0 at level 0, 8 steps at 24 and `vu_height - 4` at 48. |
| `History.Recent` | main.py:383-386 | The kept window has the length of the list, or the bound when the list is longer. |
| `History.RecentIsSuffix` | main.py:383-386 | The kept window is a suffix of the list: its newest entries. |
| `History.PushOnce` | main.py:381-386 | Appending and then popping once keeps a list within its bound, with the new value last. |
| `History.PushOnceIsRecent` | main.py:381-386 | For a list within its bound, appending and popping once keeps exactly the newest entries. |
| `History.RecentOfRecent` | SPL_meter.py:460-465 | Keeping the newest `n` after each arrival is keeping the newest `n` of the whole stream. |
| `History.FeedAllIsRecent` | SPL_meter.py:457-465 | After any run of arrivals, a bounded list holds the newest `n` values of everything fed, in arrival order. |
| `History.RecentOfLonger` | main.py:383-386 | The newest `n` of a list kept to `m >= n` entries are the newest `n` of the stream. So the averaging window stays the tail of the graph line. |
| `History.PushLevel` | main.py:378-386 | Appending a level to the window and the graph line and popping each once keeps both bounded. The window stays the newest entries of the line, and levels in [0, 48] stay in range. |
| `History.PyTailIsRecent` | meter/meter.py:249 | `s[-n:]` is the whole list for `n = 0` and the newest `n` entries otherwise. |
| `History.MinOf` | meter/meter.py:249 | `min` of a non-empty list is one of its entries and no larger than any. |
| `History.SumBounds` | main.py:387 | The sum of levels in [0, 48] lies between 0 and 48 times their count. |
| `History.AggregateInRange` | main.py:387 | The mean or the minimum of levels in [0, 48] is again in [0, 48]. |
| `History.MinimumAtMostNewest` | meter/meter.py:247-249 | The minimum of a window is at most its newest entry. |
| `History.ShownAverageInRange` | main.py:387 | The average a channel shows (48 before any level) is in [0, 48] when its levels are. |
| `History.FlatLineAggregate` | meter/meter.py:280-282 | A channel fed only the flat line 48 shows 48 under either statistic. |
| `History.Classify` | meter/meter.py:251 | LOW if and only if `avg >= quiet`; HIGH if and only if `avg < quiet` and `avg <= loud`; MID if and only if `loud < avg < quiet`. |
| `History.ClassifyMonotone` | meter/meter.py:251 | With fixed thresholds, a quieter average never gives a louder state. |
| `History.MidBandExists` | meter/meter.py:251 | Some average is classified MID exactly when the loud threshold is below the quiet one. |
| `History.LevelColour` | main.py:389-394 | ORANGE if and only if `vus >= quiet`; RED if and only if `vus < quiet` and `vus <= loud`; GREEN otherwise. |
| `Levels.Rms` | SPL_meter.py:179-185 | The rms loop gives the square root of the mean of the squared scaled samples. On an empty block it raises ZeroDivisionError, and only then. |
| `Levels.MeanSquareOfInt16` | SPL_meter.py:179-185 | For 16-bit samples the mean square lies in [0, 1]. |
| `Levels.GetDb` | meter/meter.py:220-224 | `get_db` is 48 for a zero rms and otherwise `abs(20 log10 rms)` clamped to [0, 48]. The result is always in [0, 48]. |
| `Levels.FullScaleIsLoudest` | main.py:356-359 | A full-scale block reads as the loudest level 0. |
| `Levels.SilenceSentinel` | main.py:358-359 | The value 48 comes exactly from a zero rms or from a signal whose level lies at least 48 dB away from full scale, on either side. |
| `Levels.SilenceBelowFullScale` | main.py:356-359 | For a signal at or below full scale, 48 means exactly silence or at least 48 dB below full scale, and a signal within 48 dB reads as its distance below full scale. |
| `Levels.Level` | meter/meter.py:222-224 | The level of a non-empty block is in [0, 48]. |
| `Levels.ReadBlock` | meter/meter.py:226-243 | `read` returns the samples unchanged in length: A-weighted when A/W is on, raw otherwise. The level is that of the returned data. |
| `Levels.SplitFeeds` | meter/meter.py:265-278 | One block gives two channel feeds in split mode and one otherwise, every level in [0, 48], every channel 0 or 1. |
| `Levels.SplitBandsFollowAWeighting` | meter/meter.py:263-273 | Split mode filters the bands from the data `read` returned: A-weighted when A/W is on, raw otherwise. |
| `Levels.SingleFeedIsBlockLevel` | meter/meter.py:277-278 | Outside split mode only channel 0 is fed, with the block's level. |
| `Levels.SplitFeedsRouting` | main.py:396-410 | Channel 0 gets the high band in split mode and the block's level otherwise. Channel 1 gets the low band in split mode and nothing otherwise, so `main.py` does not flat-line it. |
| `MeterApp.DefaultThresholds` | meter/meter.py:65-66 | The `CONFIG.get` fallbacks: loud is below quiet for music and for speech, and the window is non-empty. |
| `MeterApp.DefaultsLeaveMidBand` | meter/meter.py:136-149 | Under those fallbacks both threshold pairs leave a band of averages that the indicators show as MID. |
| `MeterApp.ReflowTiles` | meter/meter.py:167-197 | In all four cases of `reflow`, each cell of columns 1-2 by rows 0-3 is covered by exactly one registered centre pane, and no other cell is covered. |
| `MeterApp.ReflowShowsWhatIsAsked` | meter/meter.py:170-197 | The first indicator is always shown, the second exactly with line-in or split, the graph exactly with the graph button. |
| `MeterApp.Stream1Routing` | meter/meter.py:260-282 | Channel 0 gets one level per iteration: the high band in split mode, the block's level otherwise. Channel 1 gets the low band in split mode, the flat line 48 when neither line-in nor split is on, and nothing with line-in. |
| `MeterApp.LabelOr` | meter/meter.py:119-120 | `CONFIG.get(key, default)` gives the setting when present and the default otherwise. |
| `MeterApp.GridButton` | meter/meter.py:112 | One step of the comprehension makes a labelled, enabled, idle button and registers it at (0, i). |
| `MeterApp.GridButtons` | meter/meter.py:111-112 | The four buttons are distinct, labelled in order and registered down column 0. Earlier registrations stay. |
| `MeterApp.WireButtons` | meter/meter.py:113-117 | Speech, split and graph get callbacks and A/W none. Split is disabled exactly with line-in, and every button is off. |
| `MeterApp.GridIndicators` | meter/meter.py:119-121 | Both indicators start at MID, are registered at (1, 0) and (2, 0), and are labelled from `source_1_label` (defaults "1" and "2"). |
| `MeterApp.GridGraphAndMeter` | meter/meter.py:123-124 | The graph is registered at (1, 2) with two empty lines. The VU meter is at (3, 0) with levels 48 and the music thresholds. |
| `MeterApp.GridPanes` | meter/meter.py:119-124 | Registering the panes leaves the buttons in place and gives a 4 x 4 grid of distinct centre panes. |
| `MeterApp.BuildBox` | meter/meter.py:109-124 | The box holds the wired buttons down column 0, the panes and the VU meter down column 3, in a 4 x 4 grid. |
| `MeterApp.SetupDisplay` | meter/meter.py:108-126 | The root window is on the screen with the box as its only child, and is running. |
| `MeterApp.Meter.FixedStayPlaced` | meter/meter.py:167-197 | Re-registering the centre panes leaves the buttons and the VU meter where they were. |
| `MeterApp.Meter.RegisteredFollowsTable` | meter/meter.py:167-197 | After reflow, each pane of the table is at its cell, no other centre pane is registered, and every other widget is unchanged. |
| `MeterApp.Meter.PanesFollowTable` | meter/meter.py:170-197 | After reflow the centre panes registered are exactly those of the table, each at its cell. |
| `MeterApp.Meter.constructor` | meter/meter.py:58-66 | `__init__` up to the closing reflow: the widgets as built, the box on the root window, and `loud`/`quiet` from the music settings. |
| `MeterApp.Meter.Open` | meter/meter.py:94-133 | `Meter()` ends with the centre laid out for line-in alone: the registered panes and spans are exactly the table's, with callbacks wired and music thresholds. |
| `MeterApp.Meter.FirstReflow` | meter/meter.py:133 | The closing reflow with no button on lays the centre out as the line-in-only table says. |
| `MeterApp.Meter.OnSpeechTogClick` | meter/meter.py:136-149 | The meter and the VU meter both take the speech thresholds when the state is on and the music ones when it is off. |
| `MeterApp.Meter.LayOutDual` | meter/meter.py:170-186 | The dual arm registers the table's panes with the table's spans. |
| `MeterApp.Meter.DualWithGraph` | meter/meter.py:173-181 | The indicators go 1 x 2 at (1, 0) and (2, 0), and the graph 2 x 2 at (1, 2). |
| `MeterApp.Meter.DualHalves` | meter/meter.py:182-186 | The indicators go 2 x 2 at (1, 0) and (1, 2). |
| `MeterApp.Meter.LayOutSingle` | meter/meter.py:187-197 | The first indicator goes 2 x 2 over the graph at (1, 2), or 2 x 4 alone. |
| `MeterApp.Meter.ClearCentre` | meter/meter.py:167-169 | The three removals take out exactly the centre panes. |
| `MeterApp.Meter.LayOut` | meter/meter.py:170-197 | The chosen arm registers the table's panes. The second indicator is untouched outside dual mode, and the graph when it is hidden. |
| `MeterApp.Meter.Reflow` | meter/meter.py:159-197 | `reflow` leaves the registrations as the table for the current buttons says, and nothing else in the grid changes. |
| `MeterApp.Meter.OnLayoutTogClick` | meter/meter.py:151-157 | The graph and split callbacks re-lay the centre out. |
| `MeterApp.Meter.ButtonEvent` | meter/meter.py:113-157 | A button event toggles as `Button.event` does. A press on speech gives the VU meter the new thresholds; any other event leaves them. A press on split or graph reflows, and the new layout tiles the table. Any other event leaves the centre panes as they were. |
| `MeterApp.Meter.AddValue` | meter/meter.py:245-258 | The graph takes the level. The average is the minimum of the last `average_samples` graph entries (all of them for 0), so it is at most the level. The VU average and the indicator state are set from it, the indicator is marked dirty only on a change, and the other channel keeps what it showed. `min([])` raises ValueError exactly when the graph keeps no samples. |
| `MeterApp.Meter.ShowLevel` | meter/meter.py:249-258 | The minimum of the channel's window becomes the indicator's state, marked dirty only when it changes, and the VU meter's average for this channel (`Shows(index)`). The VU meter also takes the level. The other channel keeps its indicator state, its current value and what it showed. |
| `MeterApp.Meter.ReadStream1Step` | meter/meter.py:260-282 | Each channel's graph line takes the levels the routing sends it, and its current VU value is the last of them. On success channel 0, and channel 1 whenever it is fed, shows the minimum of its window as VU average and indicator state. |
| `MeterApp.Meter.ReadStream2Step` | meter/meter.py:284-288 | A block from the second stream feeds channel 1 alone, which then shows the minimum of its window as VU average and indicator state. |
| `MeterApp.Meter.FeedBands` | meter/meter.py:265-276 | The low band goes to channel 1, then the high band to channel 0, and both channels show the minimum of their windows as VU average and indicator state. |
| `MeterApp.Meter.FeedBlock` | meter/meter.py:277-282 | The block's level goes to channel 0, then 48 to channel 1 when there is no second input. Each channel fed shows the minimum of its window as VU average and indicator state; channel 1 is left alone otherwise. |
| `SideButtons.HitFrom` | main.py:331-336 | The first button from an index on whose rectangle holds the point; None exactly when none does. |
| `SideButtons.PressTarget` | main.py:329-336 | An event names a button only when it is a mouse press whose position lies on that button. Any other event names none. |
| `SideButtons.TargetOfEach` | main.py:323-336 | The batch of targets names, for each polled event, the button that event lands on. |
| `SideButtons.BottomAboveNextTop` | main.py:332-335 | Each button's rectangle ends above the next one's top. |
| `SideButtons.ButtonsDisjoint` | SPL_meter.py:421-426 | No press lands on two buttons. |
| `SideButtons.HitIsUnique` | SPL_meter.py:421-426 | The `for i in range(4)` loop acts on at most one button: the one hit, or none exactly when no rectangle holds the point. |
| `SplitMeter.HorizontalImpliesVertical` | main.py:251-252 | `horizontal_split` implies `vertical_split`. |
| `SplitMeter.DrawnShowsWhatIsAsked` | main.py:251-315 | Channel 1's panel and label are drawn exactly with split or line-in, the graph exactly with its toggle, and channel 1's line only with both. |
| `SplitMeter.Meter.constructor` | main.py:51-73 | Two empty channels at 48 and ORANGE, A-weighting on, the other toggles off, music thresholds, running. |
| `SplitMeter.Meter.AverageInRange` | main.py:387 | A channel whose levels are in [0, 48] shows an average in [0, 48]. |
| `SplitMeter.Meter.BarIsNewestLevel` | main.py:238-242 | The bar drawn for a channel is at the newest level of its graph line as well as of its window. |
| `SplitMeter.Meter.AddValue` | main.py:377-394 | Window and graph line each take the level and then evict their oldest entry once if over their bound. `vus` is the mean of the non-empty window and the colour is classified from it; the other channel is untouched. |
| `SplitMeter.Meter.ReadStream1Step` | main.py:396-410 | Each channel's window and graph line take the levels the split routing sends it. Channel 0 is reclassified, and channel 1 only when it takes a level. |
| `SplitMeter.Meter.FeedBands` | main.py:400-408 | The low band goes to channel 1, then the high band to channel 0, and both are reclassified. |
| `SplitMeter.Meter.ReadStream2Step` | main.py:412-415 | A block from the second stream feeds channel 1 alone. |
| `SplitMeter.Meter.Press` | main.py:337-354 | Button 0 flips A-weighting and 1 flips speech and selects its thresholds. Button 2 flips split unless line-in is on; turning split off empties channel 1's window and line and resets its average to 48. Button 3 flips the graph. |
| `SplitMeter.Meter.Click` | main.py:329-354 | A press acts as a press of the one button hit, or changes nothing. |
| `SplitMeter.Meter.HandleEvent` | main.py:324-354 | QUIT stops the meter and changes nothing else. Any other event acts as a press of the button a mouse press lands on, or changes nothing. Levels stay in range. |
| `SplitMeter.Meter.HandleEvents` | main.py:323-354 | The meter keeps running exactly when no polled event is QUIT. The toggles end as the presses of the batch fold them, one button at a time. Channel 1's window, graph line and VU reset to empty, empty and 48 exactly when a split press switched sub-split off, and are untouched otherwise. |
| `SplitMeter.Meter.HandleNext` | main.py:323-354 | One more polled event extends the fold of the batch by the button it lands on. |
| `SplitMeter.FollowsStep` | main.py:337-342 | A batch followed by one more press follows the longer batch: the toggles fold one more step, and channel 1 is empty exactly when this press or an earlier one turned split mode off. |
| `SplitMeter.TogglesFollowPressParity` | main.py:335-354 | After a batch of presses, A-weighting, speech and graph are flipped exactly when their button was pressed an odd number of times; sub-split likewise, and only without line-in. |
| `SplitMeter.ClearingNeedsSplitPresses` | main.py:337-342 | Channel 1 is cleared by a batch only without line-in, and only after at least one split press (two when sub-split starts off). |
| `SplMeter.ReadLevel` | SPL_meter.py:440-455 | `read` is 48 for a zero rms and otherwise `abs(20 log10 rms)` clamped to [0, 48], the same level as the later `get_db` path. |
| `SplMeter.BlockLevels` | SPL_meter.py:457-459 | A run of blocks gives one level in [0, 48] per block. |
| `SplMeter.FedOneMore` | SPL_meter.py:459-465 | Feeding one more block extends the fed levels and the graph line by that block's level. |
| `SplMeter.Meter.constructor` | SPL_meter.py:115-141 | Empty histories at 48 and ORANGE, A-weighting on, graph and speech off, thresholds 24/6, running. |
| `SplMeter.Meter.AverageInRange` | SPL_meter.py:466 | `vu_1` is in [0, 48]. |
| `SplMeter.Meter.Channel2Bar` | SPL_meter.py:316-320 | Channel 2's bar is always drawn at 48. |
| `SplMeter.Meter.ReadStream1Step` | SPL_meter.py:459-473 | `samples_1` (at most 20) and `graph_samples_1` (at most 215) take the level and evict their oldest entry. `vu_1` is their mean and `a1_colour` is classified from it. |
| `SplMeter.Meter.ReadStream1` | SPL_meter.py:457-473 | While running, the graph line ends as the newest 215 levels and the window as the newest 20 of everything held and fed, in arrival order. After at least one block, `a1_colour` is classified from the final `vu_1`; otherwise it is unchanged. |
| `SplMeter.Meter.ReadStream2` | SPL_meter.py:475-476 | `read_stream2` returns at once: `samples_2` and `graph_samples_2` stay empty and `vu_2` stays 48. |
| `SplMeter.Meter.Press` | SPL_meter.py:427-438 | Button 0 flips A-weighting, 1 flips speech and selects 36/12 or 24/6, 3 flips the graph; 2 changes nothing. |
| `SplMeter.Meter.Click` | SPL_meter.py:419-438 | A press acts as a press of the one button hit, or changes nothing. |
| `SplMeter.Meter.HandleEvent` | SPL_meter.py:416-438 | QUIT stops the meter and changes nothing else. Any other event acts as a press of the button a mouse press lands on, or changes nothing. |
| `SplMeter.Meter.HandleEvents` | SPL_meter.py:415-438 | The meter keeps running exactly when no polled event is QUIT. The toggles end as the presses of the batch fold them, one button at a time. |
| `SplMeter.Meter.HandleNext` | SPL_meter.py:415-438 | One more polled event extends the fold of the batch by the button it lands on. |
| `SplMeter.TogglesFollowPressParity` | SPL_meter.py:426-436 | After a batch of presses, A-weighting, speech and graph are flipped exactly when their button was pressed an odd number of times. |

## Left out

- Drawing is not modelled: every `render` method, `Manager.render`, `Pane.surface`, `outline_and_fill`, `rounded_rect`, fonts and `meter/utils.py`. It is pixel output through pygame. The state it reads is modelled as the `Panels` flags, the bar levels and the colours.
- PyAudio is not modelled: opening devices, listing devices, `stream.read` and the byte unpacking. A block arrives as a non-empty sequence of real samples (`|raw| > 0`, the `Chunk` type).
- The capture threads are not modelled, nor the unsynchronised sharing of lists between them and the UI loop. Each `read_stream` loop is modelled sequentially, as one iteration (`ReadStream1Step`, `ReadStream2Step`) or, for `SPL_meter.py`, as a run over the blocks the stream delivers.
- Floating-point numerics are not modelled: the A-weighting and Butterworth coefficient design, `lfilter`, `math.sqrt` and `math.log10`. They are uninterpreted functions, assumed only to keep the block length. Levels are exact reals.
- `get_y`'s `round` (banker's rounding on floats) and the `(yp + 1, h)` it returns are not modelled; only the offset before rounding is.
- `meter/config.py` (YAML loading, the `NEW_CONFIG` flag) is not modelled. The settings the core reads are a `Config` value. The constants of `config.py` are Dafny constants.
- The welcome and new-configuration `MessageBox` children that `setup_display` may push, and `MessageBox` itself, are not modelled. Its `destroy` is not defined in the repository's files.
- The `Gridable.parent` deleter, `Manager.tick` and `RootWindow.mainloop` are not modelled. The same goes for the scripts' `main` loops, clock pacing, `pygame.time.wait` and the environment-variable bootstrap.
- The VIDEORESIZE branches (`meter/grid.py:257-258`, `main.py:327-328`) are not modelled: the event model carries no size, so the screen is never reset.
- pygame's `Rect` from float coordinates keeps the whole part; the model takes the floor. The two agree on the non-negative coordinates the meter uses. `collidepoint` is taken as a half-open integer test.
- `Grid.GridingManager.RequestPosition` and `Grid.GridingManager.RequestSize` take the manager's own size as a parameter and do not call `self.parent.request_size(self)`. A manager without a parent, which raises AttributeError in the source, is not modelled.
- `Routing.Dispatch` follows a manager whose children are panes. Nested managers are covered by the `Route` function and its lemmas, not by the loop.
- Routing does not model children that a callback removes or re-grids in the middle of `Manager.event` (a press on the split or graph button runs `reflow` during the dispatch). The model reads the children as they were when the dispatch began.
- The `MeterApp.Meter` constructor stops before the `reflow` that ends `setup_display`. `MeterApp.Meter.Open` is `Meter()` as a whole, constructor and then that reflow. `setup_display` and `reflow` are split into several methods only to keep each proof small.
- `MeterApp.GridIndicators` labels both indicators from `source_1_label`, as the source does (`meter/meter.py:120`), with defaults "1" and "2".
- SplMeter.Meter.ReadStream1: tests `running` once, before the first block, while the source tests it before each block. Only the UI loop clears `running`, and it runs in another thread, which is not modelled.
- SplitMeter.Meter.ReadStream2Step: does not require line-in, although `main.py` starts the second reader only with `LINE_IN`.
- MeterApp.Meter.ReadStream2Step: does not require line-in, although `meter/meter.py` starts the second reader only when `line_in` is set.
- A configuration without `loud_music`, `quiet_music` or `graph_samples` is not modelled. `VUMeter.__init__` (`meter/widgets.py:132-133`) and `Graph.feed` (`meter/widgets.py:96`) index `CONFIG` for them without a default and raise KeyError. `Meter` falls back on its own `CONFIG.get` defaults; `MeterApp.DefaultThresholds` is that fallback, and `Config` always carries all three.
- Negative window lengths are not modelled: `Config.averageSamples` and `Config.graphSamples` are `nat`. With a negative `graph_samples`, the `while` loop of `Graph.feed` would empty the list and never stop, because an empty list still has more than a negative number of entries. With a negative `average_samples`, `data[-n:]` would select a prefix of the history instead of its tail.
