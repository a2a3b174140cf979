/**
 * main.py: the split-mode meter that draws straight onto the pygame
 * screen. Its `Meter` keeps, per channel, a window of the last
 * `AVERAGE_SAMPLES` levels and a graph line of the last `GRAPH_SAMPLES`,
 * the mean of the window (`vus`) and the colour it is classified into;
 * four toggles are flipped by presses on the button column.
 *
 * `rms`, `get_db` and `read` are the same as in meter/meter.py and are
 * modelled once, by `Levels.Rms`, `Levels.GetDb` and `Levels.ReadBlock`.
 */
module SplitMeter {
  import opened Base
  import opened Events
  import opened Grid
  import opened Levels
  import opened History
  import opened SideButtons

  /** The thresholds of config.py: music and speech, loud and quiet. */
  const LoudMusic: real := 3.0
  const QuietMusic: real := 15.0
  const LoudSpeech: real := 12.0
  const QuietSpeech: real := 30.0

  /** The length of the averaging window and of the graph line. */
  const AverageSamples: nat := 20
  const GraphSamples: nat := 200

  /** Button indices of the column. */
  const AwBtn: nat := 0
  const SpeechBtn: nat := 1
  const SplitBtn: nat := 2
  const GraphBtn: nat := 3

  /** The (loud, quiet) pair the speech toggle selects. */
  function Thresholds(speech: bool): (real, real)
  {
    if speech then (LoudSpeech, QuietSpeech) else (LoudMusic, QuietMusic)
  }

  /** The four toggles of the button column. */
  datatype Toggles = Toggles(aWeighting: bool, subSplit: bool, speechEnabled: bool, showGraph: bool)

  /**
   * A press on button `i`, in the branch order of `events`: 0 flips
   * A-weighting, 2 flips split mode unless there is line-in, 1 flips
   * speech mode, 3 flips the graph; no button changes nothing.
   */
  function Toggled(t: Toggles, i: nat, lineIn: bool): Toggles
  {
    if i == AwBtn then t.(aWeighting := !t.aWeighting)
    else if i == SplitBtn && !lineIn then t.(subSplit := !t.subSplit)
    else if i == SpeechBtn then t.(speechEnabled := !t.speechEnabled)
    else if i == GraphBtn then t.(showGraph := !t.showGraph)
    else t
  }

  /** The toggles after the presses `ks` of a batch of events, in order. */
  function AfterPresses(t: Toggles, ks: seq<nat>, lineIn: bool): Toggles
  {
    if ks == [] then t
    else Toggled(AfterPresses(t, ks[..|ks| - 1], lineIn), ks[|ks| - 1], lineIn)
  }

  /** Whether some press of `ks` turns split mode off, which empties channel 1. */
  function ClearsSecond(t: Toggles, ks: seq<nat>, lineIn: bool): bool
  {
    if ks == [] then false
    else
      || ClearsSecond(t, ks[..|ks| - 1], lineIn)
      || (ks[|ks| - 1] == SplitBtn && !lineIn && AfterPresses(t, ks[..|ks| - 1], lineIn).subSplit)
  }

  /** One more press extends the fold: the toggles step once, and channel 1 is cleared by it or before. */
  lemma PressesExtend(t: Toggles, ks: seq<nat>, k: nat, lineIn: bool)
    ensures AfterPresses(t, ks + [k], lineIn) == Toggled(AfterPresses(t, ks, lineIn), k, lineIn)
    ensures ClearsSecond(t, ks + [k], lineIn) ==
      (ClearsSecond(t, ks, lineIn) || (k == SplitBtn && !lineIn && AfterPresses(t, ks, lineIn).subSplit))
  {
    assert (ks + [k])[..|ks|] == ks;
  }

  /**
   * A toggle ends a batch of events flipped exactly when an odd number of
   * the batch's mouse presses landed on its button; with line-in the
   * split button does nothing.
   */
  lemma {:induction false} TogglesFollowPressParity(t: Toggles, ks: seq<nat>, lineIn: bool)
    ensures var u := AfterPresses(t, ks, lineIn);
      && (u.aWeighting <==> t.aWeighting != Odd(Presses(ks, AwBtn)))
      && (u.subSplit <==> t.subSplit != (!lineIn && Odd(Presses(ks, SplitBtn))))
      && (u.speechEnabled <==> t.speechEnabled != Odd(Presses(ks, SpeechBtn)))
      && (u.showGraph <==> t.showGraph != Odd(Presses(ks, GraphBtn)))
  {
    if ks != [] {
      var prefix, k := ks[..|ks| - 1], ks[|ks| - 1];
      assert ks == prefix + [k];
      TogglesFollowPressParity(t, prefix, lineIn);
      OddStep(prefix, k, AwBtn);
      OddStep(prefix, k, SplitBtn);
      OddStep(prefix, k, SpeechBtn);
      OddStep(prefix, k, GraphBtn);
    }
  }

  /**
   * A batch empties channel 1 only without line-in, and only when a press
   * on the split button found split mode on: one press if it was on at
   * the start, two if it was off.
   */
  lemma {:induction false} ClearingNeedsSplitPresses(t: Toggles, ks: seq<nat>, lineIn: bool)
    ensures ClearsSecond(t, ks, lineIn) ==>
      !lineIn && Presses(ks, SplitBtn) >= (if t.subSplit then 1 else 2)
  {
    if ks != [] {
      var prefix := ks[..|ks| - 1];
      ClearingNeedsSplitPresses(t, prefix, lineIn);
      TogglesFollowPressParity(t, prefix, lineIn);
    }
  }

  /**
   * The toggles `t` and channel histories `s`, `g`, `v` after the presses
   * `ks` of a batch that started from `t0`, `s0`, `g0`, `v0`: the toggles
   * are folded over the presses, and channel 1 is empty exactly when one
   * of them turned split mode off.
   */
  ghost predicate Follows(t0: Toggles, s0: seq<seq<real>>, g0: seq<seq<real>>, v0: seq<real>,
                          ks: seq<nat>, lineIn: bool,
                          t: Toggles, s: seq<seq<real>>, g: seq<seq<real>>, v: seq<real>)
  {
    && |s0| == 2 && |g0| == 2 && |v0| == 2
    && t == AfterPresses(t0, ks, lineIn)
    && if ClearsSecond(t0, ks, lineIn) then
         s == s0[1 := []] && g == g0[1 := []] && v == v0[1 := Silence]
       else
         s == s0 && g == g0 && v == v0
  }

  /** One press, on values: the toggles step, and turning split mode off empties channel 1. */
  ghost predicate Stepped(k: nat, lineIn: bool,
                          t: Toggles, s: seq<seq<real>>, g: seq<seq<real>>, v: seq<real>,
                          t': Toggles, s': seq<seq<real>>, g': seq<seq<real>>, v': seq<real>)
  {
    && |s| == 2 && |g| == 2 && |v| == 2
    && t' == Toggled(t, k, lineIn)
    && if k == SplitBtn && !lineIn && t.subSplit then
         s' == s[1 := []] && g' == g[1 := []] && v' == v[1 := Silence]
       else
         s' == s && g' == g && v' == v
  }

  /** A batch followed by one more press follows the longer batch. */
  lemma FollowsStep(t0: Toggles, s0: seq<seq<real>>, g0: seq<seq<real>>, v0: seq<real>,
                    ks: seq<nat>, k: nat, lineIn: bool,
                    t: Toggles, s: seq<seq<real>>, g: seq<seq<real>>, v: seq<real>,
                    t': Toggles, s': seq<seq<real>>, g': seq<seq<real>>, v': seq<real>)
    requires Follows(t0, s0, g0, v0, ks, lineIn, t, s, g, v)
    requires Stepped(k, lineIn, t, s, g, v, t', s', g', v')
    ensures Follows(t0, s0, g0, v0, ks + [k], lineIn, t', s', g', v')
  {
    PressesExtend(t0, ks, k, lineIn);
  }

  /**
   * One channel's history as `add_value` keeps it: the graph line within
   * its bound, the averaging window the newest entries of that line, and
   * `vus` the shown average of the window.
   */
  ghost predicate Kept(window: seq<real>, line: seq<real>, vu: real)
  {
    && |line| <= GraphSamples
    && window == Recent(line, AverageSamples)
    && vu == ShownAverage(window)
  }

  // ---------------------------------------------------------------- render

  /** `vertical_split` of `render`: the centre is split into a top and a bottom row. */
  function VerticalSplit(subSplit: bool, showGraph: bool, lineIn: bool): bool
  {
    subSplit || showGraph || lineIn
  }

  /** `horizontal_split` of `render`: the top row is split into two indicators. */
  function HorizontalSplit(subSplit: bool, showGraph: bool, lineIn: bool): bool
  {
    showGraph && (subSplit || lineIn)
  }

  /** The top row is only ever split in two when the centre is split into rows. */
  lemma HorizontalImpliesVertical(subSplit: bool, showGraph: bool, lineIn: bool)
    ensures HorizontalSplit(subSplit, showGraph, lineIn) ==> VerticalSplit(subSplit, showGraph, lineIn)
  {
  }

  /** What `render` draws in the centre of the screen. */
  datatype Panels = Panels(
    secondIndicator: bool,  // a panel in the colour of channel 1
    secondLabel: bool,      // the channel 1 label
    graph: bool,            // the graph area
    secondLine: bool)       // channel 1's graph line

  /** The branches of `render` on the two split flags. */
  function Drawn(subSplit: bool, showGraph: bool, lineIn: bool): Panels
  {
    var v := VerticalSplit(subSplit, showGraph, lineIn);
    var h := HorizontalSplit(subSplit, showGraph, lineIn);
    Panels(
      if v && h then true else if v then !showGraph else false,
      (v && h) || (v && !showGraph),
      showGraph,
      showGraph && (lineIn || subSplit))
  }

  /**
   * Channel 1 has a coloured panel and a label exactly when there is a
   * second source (split mode or line-in), the graph is drawn exactly
   * when its toggle is on, and channel 1's line only with both.
   */
  lemma DrawnShowsWhatIsAsked(subSplit: bool, showGraph: bool, lineIn: bool)
    ensures var p := Drawn(subSplit, showGraph, lineIn);
      && (p.secondIndicator <==> subSplit || lineIn)
      && (p.secondLabel <==> subSplit || lineIn)
      && (p.graph <==> showGraph)
      && (p.secondLine <==> showGraph && (subSplit || lineIn))
  {
  }

  class Meter {
    /** `LINE_IN`: a second input device feeds channel 1. */
    const lineIn: bool
    var screen: Size
    var running: bool

    var colours: seq<Colour>
    var graphSamples: seq<seq<real>>
    var samples: seq<seq<real>>
    var vus: seq<real>

    var speechEnabled: bool
    var aWeighting: bool
    var showGraph: bool
    var subSplit: bool

    var loud: real
    var quiet: real

    /**
     * Two channels, each kept as `add_value` keeps it; the thresholds are
     * those of the speech toggle; split mode is never on with line-in,
     * since its button only acts without line-in.
     */
    ghost predicate Valid()
      reads this
    {
      && screen.w >= 0 && screen.h >= 0
      && |colours| == 2 && |graphSamples| == 2 && |samples| == 2 && |vus| == 2
      && Kept(samples[0], graphSamples[0], vus[0])
      && Kept(samples[1], graphSamples[1], vus[1])
      && (loud, quiet) == Thresholds(speechEnabled)
      && (lineIn ==> !subSplit)
    }

    /** Every level held for either channel lies in [0, 48]. */
    ghost predicate LevelsInRange()
      reads this
      requires |graphSamples| == 2
    {
      forall c, i :: 0 <= c < 2 && 0 <= i < |graphSamples[c]| ==> InRange(graphSamples[c][i])
    }

    /** The toggles as they stand. */
    function Settings(): Toggles
      reads this
    {
      Toggles(aWeighting, subSplit, speechEnabled, showGraph)
    }

    /** `Meter()`, without opening the screen, the audio streams and their threads. */
    constructor (lineIn: bool, screen: Size)
      requires screen.w >= 0 && screen.h >= 0
      ensures Valid() && LevelsInRange()
      ensures this.lineIn == lineIn && this.screen == screen && running
      ensures colours == [Orange, Orange] && graphSamples == [[], []] && samples == [[], []]
      ensures vus == [Silence, Silence]
      ensures !speechEnabled && aWeighting && !showGraph && !subSplit
      ensures loud == LoudMusic && quiet == QuietMusic
    {
      this.lineIn := lineIn;
      this.screen := screen;
      running := true;
      colours := [Orange, Orange];
      graphSamples := [[], []];
      samples := [[], []];
      vus := [Silence, Silence];
      speechEnabled := false;
      aWeighting := true;
      showGraph := false;
      subSplit := false;
      // speech_enabled starts False, so the music thresholds are chosen.
      loud := LoudMusic;
      quiet := QuietMusic;
    }

    /** The shown average of a channel whose levels are in [0, 48] is in [0, 48]. */
    lemma AverageInRange(c: nat)
      requires Valid() && LevelsInRange() && c < 2
      ensures InRange(vus[c])
    {
      var line := graphSamples[c];
      RecentIsSuffix(line, AverageSamples);
      assert forall i :: 0 <= i < |samples[c]| ==> samples[c][i] == line[|line| - |samples[c]| + i];
      ShownAverageInRange(samples[c]);
    }

    /**
     * The bar `render` draws for a channel is at the newest level of its
     * graph line as well as of its window: both take every level.
     */
    lemma BarIsNewestLevel(c: nat)
      requires Valid() && c < 2
      ensures BarLevel(samples[c]) == BarLevel(graphSamples[c])
    {
      RecentIsSuffix(graphSamples[c], AverageSamples);
    }

    // ------------------------------------------------------------ add_value

    /**
     * `add_value`: the level is appended to the channel's window and graph
     * line, each then dropping its oldest entry if over its bound; the
     * channel's average becomes the mean of the (now non-empty) window and
     * its colour is classified from it. The other channel is untouched.
     */
    method AddValue(val: real, index: nat)
      requires Valid() && index < 2
      modifies this`samples, this`graphSamples, this`vus, this`colours
      ensures Valid()
      ensures samples[index] == Recent(old(samples[index]) + [val], AverageSamples)
      ensures graphSamples[index] == Recent(old(graphSamples[index]) + [val], GraphSamples)
      ensures samples[index] != [] && vus[index] == Aggregate(Mean, samples[index])
      ensures colours[index] == LevelColour(vus[index], quiet, loud)
      ensures samples[1 - index] == old(samples[1 - index])
      ensures graphSamples[1 - index] == old(graphSamples[1 - index])
      ensures vus[1 - index] == old(vus[1 - index]) && colours[1 - index] == old(colours[1 - index])
      ensures old(LevelsInRange()) && InRange(val) ==> LevelsInRange()
    {
      var s, g := PushLevel(samples[index], graphSamples[index], val, AverageSamples, GraphSamples);
      samples := samples[index := s];
      graphSamples := graphSamples[index := g];
      var avg := Sum(s) / |s| as real;
      vus := vus[index := avg];
      if avg >= quiet {
        colours := colours[index := Orange];
      } else if avg <= loud {
        colours := colours[index := Red];
      } else {
        colours := colours[index := Green];
      }
    }

    // ------------------------------------------------------------ read_stream1 / read_stream2

    /**
     * One iteration of `read_stream1` on a block of samples: each channel
     * takes the levels split routing sends it, in both its window and its
     * graph line, and a channel that takes a level is reclassified.
     */
    method ReadStream1Step(raw: Signal, num: Numerics)
      requires Valid() && |raw| > 0 && FiltersKeepLength(num)
      modifies this`samples, this`graphSamples, this`vus, this`colours
      ensures Valid()
      ensures var feeds := SplitFeeds(subSplit, aWeighting, raw, num);
        var l0, l1 := ChannelLevels(feeds, 0), ChannelLevels(feeds, 1);
        && graphSamples[0] == Recent(old(graphSamples[0]) + l0, GraphSamples)
        && samples[0] == Recent(old(samples[0]) + l0, AverageSamples)
        && colours[0] == LevelColour(vus[0], quiet, loud)
        && graphSamples[1] == Recent(old(graphSamples[1]) + l1, GraphSamples)
        && samples[1] == Recent(old(samples[1]) + l1, AverageSamples)
        && colours[1] == if l1 == [] then old(colours[1]) else LevelColour(vus[1], quiet, loud)
    {
      var b := ReadBlock(aWeighting, raw, num);
      SplitFeedsRouting(subSplit, aWeighting, raw, num);
      if subSplit {
        FeedBands(Level(num.lowPass(b.data), num), Level(num.highPass(b.data), num));
      } else {
        ghost var w1, g1 := samples[1], graphSamples[1];
        AddValue(b.db, 0);
        assert w1 + [] == w1 && g1 + [] == g1;
      }
    }

    /** The split arm of `read_stream1`: the low band to channel 1, then the high band to channel 0. */
    method FeedBands(lpDb: real, hpDb: real)
      requires Valid()
      modifies this`samples, this`graphSamples, this`vus, this`colours
      ensures Valid()
      ensures graphSamples[0] == Recent(old(graphSamples[0]) + [hpDb], GraphSamples)
      ensures samples[0] == Recent(old(samples[0]) + [hpDb], AverageSamples)
      ensures colours[0] == LevelColour(vus[0], quiet, loud)
      ensures graphSamples[1] == Recent(old(graphSamples[1]) + [lpDb], GraphSamples)
      ensures samples[1] == Recent(old(samples[1]) + [lpDb], AverageSamples)
      ensures colours[1] == LevelColour(vus[1], quiet, loud)
    {
      ghost var w0, g0 := samples[0], graphSamples[0];
      AddValue(lpDb, 1);
      assert samples[0] == w0 && graphSamples[0] == g0;
      ghost var w1, g1, v1, c1 := samples[1], graphSamples[1], vus[1], colours[1];
      AddValue(hpDb, 0);
      assert samples[1] == w1 && graphSamples[1] == g1 && vus[1] == v1 && colours[1] == c1;
    }

    /** One iteration of `read_stream2` (run only with line-in): the block's level goes to channel 1. */
    method ReadStream2Step(raw: Signal, num: Numerics)
      requires Valid() && |raw| > 0 && FiltersKeepLength(num)
      modifies this`samples, this`graphSamples, this`vus, this`colours
      ensures Valid()
      ensures var v := ReadBlock(aWeighting, raw, num).db;
        && graphSamples[1] == Recent(old(graphSamples[1]) + [v], GraphSamples)
        && samples[1] == Recent(old(samples[1]) + [v], AverageSamples)
        && colours[1] == LevelColour(vus[1], quiet, loud)
      ensures samples[0] == old(samples[0]) && graphSamples[0] == old(graphSamples[0])
      ensures vus[0] == old(vus[0]) && colours[0] == old(colours[0])
    {
      var b := ReadBlock(aWeighting, raw, num);
      AddValue(b.db, 1);
    }

    // ------------------------------------------------------------ events

    /**
     * The effect of a press on button `i` of the column, as `events`
     * applies it: 0 flips A-weighting; 2 flips split mode unless line-in
     * is on, and turning it off empties channel 1's window and graph line
     * and resets its average to 48; 1 flips speech mode and selects its
     * thresholds; 3 flips the graph. Any other index changes nothing.
     */
    twostate predicate PressedAs(i: nat)
      reads this
    {
      && |old(samples)| == 2 && |old(graphSamples)| == 2 && |old(vus)| == 2
      && aWeighting == (if i == AwBtn then !old(aWeighting) else old(aWeighting))
      && subSplit == (if i == SplitBtn && !lineIn then !old(subSplit) else old(subSplit))
      && speechEnabled == (if i == SpeechBtn then !old(speechEnabled) else old(speechEnabled))
      && showGraph == (if i == GraphBtn then !old(showGraph) else old(showGraph))
      && (loud, quiet) == (if i == SpeechBtn then Thresholds(speechEnabled) else (old(loud), old(quiet)))
      && (if i == SplitBtn && !lineIn && !subSplit then
            && samples == old(samples)[1 := []]
            && graphSamples == old(graphSamples)[1 := []]
            && vus == old(vus)[1 := Silence]
          else
            samples == old(samples) && graphSamples == old(graphSamples) && vus == old(vus))
      && colours == old(colours) && running == old(running) && screen == old(screen)
    }

    /** The body of the `for i in range(4)` loop of `events` for a button that was hit. */
    method Press(i: nat)
      requires Valid()
      modifies this`aWeighting, this`subSplit, this`speechEnabled, this`showGraph
      modifies this`loud, this`quiet, this`samples, this`graphSamples, this`vus
      ensures Valid() && PressedAs(i)
      ensures old(LevelsInRange()) ==> LevelsInRange()
    {
      if i == AwBtn {
        aWeighting := !aWeighting;
      } else if i == SplitBtn && !lineIn {
        subSplit := !subSplit;
        if !subSplit {
          samples := samples[1 := []];
          graphSamples := graphSamples[1 := []];
          vus := vus[1 := Silence];
        }
      } else if i == SpeechBtn {
        speechEnabled := !speechEnabled;
        if speechEnabled {
          loud := LoudSpeech;
          quiet := QuietSpeech;
        } else {
          loud := LoudMusic;
          quiet := QuietMusic;
        }
      } else if i == GraphBtn {
        showGraph := !showGraph;
      }
    }

    /**
     * A mouse press at `pos`: every button whose rectangle holds the point
     * is pressed in index order. The rectangles do not overlap, so this is
     * a press of the one button hit, or nothing.
     */
    method Click(pos: Point)
      requires Valid()
      modifies this`aWeighting, this`subSplit, this`speechEnabled, this`showGraph
      modifies this`loud, this`quiet, this`samples, this`graphSamples, this`vus
      ensures Valid()
      ensures ButtonHit(screen, pos).Some? ==> PressedAs(ButtonHit(screen, pos).value)
      ensures ButtonHit(screen, pos).None? ==> PressedAs(ButtonCount)
      ensures old(LevelsInRange()) ==> LevelsInRange()
    {
      ghost var hit := ButtonHit(screen, pos);
      HitIsUnique(screen, pos);
      for i := 0 to ButtonCount
        invariant Valid()
        invariant old(LevelsInRange()) ==> LevelsInRange()
        invariant hit.Some? && hit.value < i ==> PressedAs(hit.value)
        invariant !(hit.Some? && hit.value < i) ==> PressedAs(ButtonCount)
      {
        if OnButton(i, screen, pos) {
          Press(i);
        }
      }
    }

    /**
     * One event of the `events` loop: QUIT stops the meter, a mouse press
     * goes to the button column; every other event leaves the state alone.
     */
    method HandleEvent(ev: Event)
      requires Valid()
      modifies this`running, this`aWeighting, this`subSplit, this`speechEnabled, this`showGraph
      modifies this`loud, this`quiet, this`samples, this`graphSamples, this`vus
      ensures Valid()
      ensures running == (old(running) && ev.kind != Quit)
      ensures ev.kind != Quit ==> PressedAs(PressTarget(screen, ev))
      ensures ev.kind == Quit ==> unchanged(this`aWeighting, this`subSplit, this`speechEnabled, this`showGraph, this`loud, this`quiet, this`samples, this`graphSamples, this`vus)
      ensures old(LevelsInRange()) ==> LevelsInRange()
    {
      if ev.kind == Quit {
        running := false;
      } else if ev.kind == MouseButtonDown && ev.pos.Some? {
        Click(ev.pos.value);
      }
    }

    /** The meter's toggles and histories follow the presses `ks` of a batch that started from `t0`, `s0`, `g0`, `v0`. */
    ghost predicate Batched(t0: Toggles, s0: seq<seq<real>>, g0: seq<seq<real>>, v0: seq<real>, ks: seq<nat>)
      reads this
    {
      Follows(t0, s0, g0, v0, ks, lineIn, Settings(), samples, graphSamples, vus)
    }

    /** One more event of the batch: its press, if any, joins the fold. */
    method HandleNext(ev: Event, ghost t0: Toggles, ghost s0: seq<seq<real>>, ghost g0: seq<seq<real>>,
                      ghost v0: seq<real>, ghost ks: seq<nat>)
      requires Valid() && Batched(t0, s0, g0, v0, ks)
      modifies this`running, this`aWeighting, this`subSplit, this`speechEnabled, this`showGraph
      modifies this`loud, this`quiet, this`samples, this`graphSamples, this`vus
      ensures Valid() && Batched(t0, s0, g0, v0, ks + [PressTarget(screen, ev)])
      ensures running == (old(running) && ev.kind != Quit)
      ensures old(LevelsInRange()) ==> LevelsInRange()
    {
      ghost var k := PressTarget(screen, ev);
      ghost var t, s, g, v := Settings(), samples, graphSamples, vus;
      if ev.kind == Quit {
        assert k == ButtonCount;
        HandleEvent(ev);
      } else {
        HandleEvent(ev);
      }
      FollowsStep(t0, s0, g0, v0, ks, k, lineIn, t, s, g, v, Settings(), samples, graphSamples, vus);
    }

    /**
     * The `events` loop over the polled events: the meter keeps running
     * unless one of them is QUIT, and every mouse press of the batch acts
     * on the button it lands on, in order. Channel 1 is emptied when one
     * of those presses turns split mode off; the colours never change.
     */
    method HandleEvents(polled: seq<Event>)
      requires Valid()
      modifies this`running, this`aWeighting, this`subSplit, this`speechEnabled, this`showGraph
      modifies this`loud, this`quiet, this`samples, this`graphSamples, this`vus
      ensures Valid()
      ensures running <==> old(running) && forall j :: 0 <= j < |polled| ==> polled[j].kind != Quit
      ensures old(LevelsInRange()) ==> LevelsInRange()
      ensures Settings() == AfterPresses(old(Settings()), Targets(screen, polled), lineIn)
      ensures ClearsSecond(old(Settings()), Targets(screen, polled), lineIn) ==>
        && samples == old(samples)[1 := []] && graphSamples == old(graphSamples)[1 := []]
        && vus == old(vus)[1 := Silence]
      ensures !ClearsSecond(old(Settings()), Targets(screen, polled), lineIn) ==>
        samples == old(samples) && graphSamples == old(graphSamples) && vus == old(vus)
    {
      ghost var t0, s0, g0, v0 := Settings(), samples, graphSamples, vus;
      ghost var ks: seq<nat> := [];
      for i := 0 to |polled|
        invariant Valid()
        invariant running <==> old(running) && forall j :: 0 <= j < i ==> polled[j].kind != Quit
        invariant old(LevelsInRange()) ==> LevelsInRange()
        invariant ks == Targets(screen, polled[..i])
        invariant Batched(t0, s0, g0, v0, ks)
      {
        HandleNext(polled[i], t0, s0, g0, v0, ks);
        NoQuitExtend(polled, i);
        TargetsExtend(screen, polled, i);
        ks := ks + [PressTarget(screen, polled[i])];
      }
      assert polled[..|polled|] == polled;
    }
  }
}
