/**
 * SPL_meter.py: the oldest, single-stream version of the meter. One input
 * feeds `samples_1` (the averaging window, `AVERAGE_SAMPLES` long) and
 * `graph_samples_1` (the graph line, `GRAPH_SAMPLES` long); `vu_1` is the
 * mean of the window and `a1_colour` its classification. The second
 * stream's reader returns at once, so channel 2 never receives a level.
 */
module SplMeter {
  import opened Base
  import opened Events
  import opened Grid
  import opened Levels
  import opened History
  import opened SideButtons

  const AverageSamples: nat := 20
  const GraphSamples: nat := 215

  /** The thresholds, class attributes of `Meter`. */
  const QuietMusic: real := 24.0
  const LoudMusic: real := 6.0
  const QuietSpeech: real := 36.0
  const LoudSpeech: real := 12.0

  /** `pygame.display.set_mode((320, 240))`: the screen size never changes. */
  const ScreenSize: Size := Size(320, 240)

  const AwBtn: nat := 0
  const SpeechBtn: nat := 1
  const GraphBtn: nat := 3

  /** The (loud, quiet) pair the speech toggle selects. */
  function Thresholds(speech: bool): (real, real)
  {
    if speech then (LoudSpeech, QuietSpeech) else (LoudMusic, QuietMusic)
  }

  /** The three toggles of the button column. */
  datatype Toggles = Toggles(aWeighting: bool, speechEnabled: bool, showGraph: bool)

  /** A press on button `i`: 0, 1 and 3 flip their toggle; button 2 and no button change nothing. */
  function Toggled(t: Toggles, i: nat): Toggles
  {
    if i == AwBtn then t.(aWeighting := !t.aWeighting)
    else if i == SpeechBtn then t.(speechEnabled := !t.speechEnabled)
    else if i == GraphBtn then t.(showGraph := !t.showGraph)
    else t
  }

  /** The toggles after the presses `ks` of a batch of events, in order. */
  function AfterPresses(t: Toggles, ks: seq<nat>): Toggles
  {
    if ks == [] then t
    else Toggled(AfterPresses(t, ks[..|ks| - 1]), ks[|ks| - 1])
  }

  /** One more press extends the fold by one step. */
  lemma PressesExtend(t: Toggles, ks: seq<nat>, k: nat)
    ensures AfterPresses(t, ks + [k]) == Toggled(AfterPresses(t, ks), k)
  {
    assert (ks + [k])[..|ks|] == ks;
  }

  /**
   * A toggle ends a batch of events flipped exactly when an odd number of
   * the batch's mouse presses landed on its button.
   */
  lemma {:induction false} TogglesFollowPressParity(t: Toggles, ks: seq<nat>)
    ensures var u := AfterPresses(t, ks);
      && (u.aWeighting <==> t.aWeighting != Odd(Presses(ks, AwBtn)))
      && (u.speechEnabled <==> t.speechEnabled != Odd(Presses(ks, SpeechBtn)))
      && (u.showGraph <==> t.showGraph != Odd(Presses(ks, GraphBtn)))
  {
    if ks != [] {
      TogglesFollowPressParity(t, ks[..|ks| - 1]);
    }
  }

  /**
   * `read`: the rms of the block (A-weighted when the toggle is on), then
   * 48 for a zero rms and otherwise |20 log10 rms|, clamped to [0, 48].
   * It computes the same level as the `get_db` path of the later versions.
   */
  function ReadLevel(aWeighting: bool, raw: Signal, num: Numerics): (db: real)
    requires |raw| > 0 && FiltersKeepLength(num)
    ensures InRange(db)
    ensures db == ReadBlock(aWeighting, raw, num).db
  {
    var r := if !aWeighting then RmsOf(raw, num) else RmsOf(num.aWeight(raw), num);
    var d := if r != 0.0 then 20.0 * num.log10(r) else 48.0;
    MaxReal(0.0, MinReal(48.0, Abs(d)))
  }

  /** A block `stream.read(CHUNK)` returns: never empty. */
  type Chunk = s: Signal | |s| > 0 witness [0.0]

  /** The levels `read` gives for a run of blocks, in order. */
  function BlockLevels(aWeighting: bool, blocks: seq<Chunk>, num: Numerics): (levels: seq<real>)
    requires FiltersKeepLength(num)
    ensures |levels| == |blocks|
    ensures forall k :: 0 <= k < |levels| ==> InRange(levels[k])
  {
    if blocks == [] then []
    else BlockLevels(aWeighting, blocks[..|blocks| - 1], num) + [ReadLevel(aWeighting, blocks[|blocks| - 1], num)]
  }

  /** Feeding block `i` extends both the fed levels and the graph line by its level. */
  lemma FedOneMore(line: seq<real>, fed: seq<real>, aWeighting: bool, blocks: seq<Chunk>, i: nat, num: Numerics)
    requires FiltersKeepLength(num) && i < |blocks|
    requires fed == BlockLevels(aWeighting, blocks[..i], num)
    ensures var v := ReadLevel(aWeighting, blocks[i], num);
      && fed + [v] == BlockLevels(aWeighting, blocks[..i + 1], num)
      && Recent(Recent(line + fed, GraphSamples) + [v], GraphSamples) == Recent(line + (fed + [v]), GraphSamples)
  {
    var v := ReadLevel(aWeighting, blocks[i], num);
    assert blocks[..i + 1][..i] == blocks[..i];
    RecentOfRecent(line + fed, v, GraphSamples);
    assert (line + fed) + [v] == line + (fed + [v]);
  }

  class Meter {
    const screen: Size
    var running: bool

    var a1Colour: Colour
    var a2Colour: Colour
    var samples1: seq<real>
    var samples2: seq<real>
    var graphSamples1: seq<real>
    var graphSamples2: seq<real>
    var vu1: real
    var vu2: real

    var aWeighting: bool
    var showGraph: bool
    var speechEnabled: bool
    var loud: real
    var quiet: real

    /**
     * Channel 1's window is the newest entries of its bounded graph line,
     * `vu_1` their shown average, and every level in [0, 48]; channel 2
     * keeps its initial state; the thresholds follow the speech toggle.
     */
    ghost predicate Valid()
      reads this
    {
      && screen == ScreenSize
      && |graphSamples1| <= GraphSamples
      && samples1 == Recent(graphSamples1, AverageSamples)
      && vu1 == ShownAverage(samples1)
      && (forall i :: 0 <= i < |graphSamples1| ==> InRange(graphSamples1[i]))
      && samples2 == [] && graphSamples2 == [] && vu2 == Silence && a2Colour == Orange
      && (loud, quiet) == Thresholds(speechEnabled)
    }

    /** The toggles as they stand. */
    function Settings(): Toggles
      reads this
    {
      Toggles(aWeighting, speechEnabled, showGraph)
    }

    /** `Meter()`, without the screen, the audio device listing, the streams and the threads. */
    constructor ()
      ensures Valid() && running
      ensures a1Colour == Orange && samples1 == [] && graphSamples1 == [] && vu1 == Silence
      ensures aWeighting && !showGraph && !speechEnabled
      ensures loud == LoudMusic && quiet == QuietMusic
    {
      screen := ScreenSize;
      running := true;
      a1Colour := Orange;
      a2Colour := Orange;
      samples1 := [];
      samples2 := [];
      graphSamples1 := [];
      graphSamples2 := [];
      vu1 := Silence;
      vu2 := Silence;
      aWeighting := true;
      showGraph := false;
      speechEnabled := false;
      // speech_enabled starts False, so the music thresholds are chosen.
      loud := LoudMusic;
      quiet := QuietMusic;
    }

    /** `vu_1` is a level in [0, 48]: every level `read` returns is. */
    lemma AverageInRange()
      requires Valid()
      ensures InRange(vu1)
    {
      RecentIsSuffix(graphSamples1, AverageSamples);
      var n := |graphSamples1| - |samples1|;
      assert forall i :: 0 <= i < |samples1| ==> samples1[i] == graphSamples1[n + i];
      ShownAverageInRange(samples1);
    }

    /**
     * The level `render` draws channel 2's bar at: `samples_2` is never
     * fed, so it is always the silence value 48.
     */
    function Channel2Bar(): (v: real)
      requires Valid()
      reads this
      ensures v == Silence
    {
      BarLevel(samples2)
    }

    /**
     * One iteration of `read_stream1`: the level of the block is appended
     * to the window and the graph line, each then evicting its oldest
     * entry once if over its bound; `vu_1` becomes the mean of the window
     * and `a1_colour` its classification.
     */
    method ReadStream1Step(raw: Signal, num: Numerics)
      requires Valid() && |raw| > 0 && FiltersKeepLength(num)
      modifies this`samples1, this`graphSamples1, this`vu1, this`a1Colour
      ensures Valid()
      ensures var v := ReadLevel(aWeighting, raw, num);
        && samples1 == Recent(old(samples1) + [v], AverageSamples)
        && graphSamples1 == Recent(old(graphSamples1) + [v], GraphSamples)
      ensures |samples1| <= AverageSamples && |graphSamples1| <= GraphSamples
      ensures samples1 != [] && vu1 == Aggregate(Mean, samples1)
      ensures a1Colour == LevelColour(vu1, quiet, loud)
    {
      var v := ReadLevel(aWeighting, raw, num);
      samples1, graphSamples1 := PushLevel(samples1, graphSamples1, v, AverageSamples, GraphSamples);
      vu1 := Sum(samples1) / |samples1| as real;
      if vu1 >= quiet {
        a1Colour := Orange;
      } else if vu1 <= loud {
        a1Colour := Red;
      } else {
        a1Colour := Green;
      }
    }

    /**
     * `read_stream1` over the blocks the stream delivers while the meter
     * runs: the graph line ends as the newest `GRAPH_SAMPLES` levels of
     * everything it has held and been fed, and the window as the newest
     * `AVERAGE_SAMPLES`, oldest evicted first.
     */
    method ReadStream1(blocks: seq<Chunk>, num: Numerics)
      requires Valid() && FiltersKeepLength(num)
      modifies this`samples1, this`graphSamples1, this`vu1, this`a1Colour
      ensures Valid()
      ensures running ==>
        var levels := BlockLevels(aWeighting, blocks, num);
        && graphSamples1 == Recent(old(graphSamples1) + levels, GraphSamples)
        && samples1 == Recent(old(graphSamples1) + levels, AverageSamples)
      ensures !running ==> graphSamples1 == old(graphSamples1) && samples1 == old(samples1)
      ensures running && blocks != [] ==> a1Colour == LevelColour(vu1, quiet, loud)
      ensures !running || blocks == [] ==> a1Colour == old(a1Colour)
    {
      if !running {
        return;
      }
      ghost var line := graphSamples1;
      ghost var fed: seq<real> := [];
      for i := 0 to |blocks|
        invariant Valid()
        invariant fed == BlockLevels(aWeighting, blocks[..i], num)
        invariant graphSamples1 == Recent(line + fed, GraphSamples)
        invariant i > 0 ==> a1Colour == LevelColour(vu1, quiet, loud)
        invariant i == 0 ==> a1Colour == old(a1Colour)
      {
        ghost var v := ReadLevel(aWeighting, blocks[i], num);
        ReadStream1Step(blocks[i], num);
        FedOneMore(line, fed, aWeighting, blocks, i, num);
        fed := fed + [v];
      }
      assert blocks[..|blocks|] == blocks;
      RecentOfLonger(line + fed, GraphSamples, AverageSamples);
    }

    /** `read_stream2` returns before reading anything: channel 2 stays empty and silent. */
    method ReadStream2()
      requires Valid()
      ensures samples2 == [] && graphSamples2 == [] && vu2 == Silence
    {
      return;
    }

    // ------------------------------------------------------------ events

    /**
     * The effect of a press on button `i`: 0 flips A-weighting; 1 flips
     * speech mode and selects its thresholds; 3 flips the graph; button 2
     * (unlabelled) and any other index change nothing.
     */
    twostate predicate PressedAs(i: nat)
      reads this
    {
      && aWeighting == (if i == AwBtn then !old(aWeighting) else old(aWeighting))
      && speechEnabled == (if i == SpeechBtn then !old(speechEnabled) else old(speechEnabled))
      && showGraph == (if i == GraphBtn then !old(showGraph) else old(showGraph))
      && (loud, quiet) == (if i == SpeechBtn then Thresholds(speechEnabled) else (old(loud), old(quiet)))
      && running == old(running)
    }

    /** The body of the `for i in range(4)` loop of `events` for a button that was hit. */
    method Press(i: nat)
      requires Valid()
      modifies this`aWeighting, this`speechEnabled, this`showGraph, this`loud, this`quiet
      ensures Valid() && PressedAs(i)
    {
      if i == AwBtn {
        aWeighting := !aWeighting;
      } else if i == SpeechBtn {
        speechEnabled := !speechEnabled;
        if speechEnabled {
          loud := LoudSpeech;
          quiet := QuietSpeech;
        } else {
          loud := LoudMusic;
          quiet := QuietMusic;
        }
      } else if i == GraphBtn {
        showGraph := !showGraph;
      }
    }

    /** A mouse press at `pos`: a press of the one button hit, or nothing. */
    method Click(pos: Point)
      requires Valid()
      modifies this`aWeighting, this`speechEnabled, this`showGraph, this`loud, this`quiet
      ensures Valid()
      ensures ButtonHit(screen, pos).Some? ==> PressedAs(ButtonHit(screen, pos).value)
      ensures ButtonHit(screen, pos).None? ==> PressedAs(ButtonCount)
    {
      ghost var hit := ButtonHit(screen, pos);
      HitIsUnique(screen, pos);
      for i := 0 to ButtonCount
        invariant Valid()
        invariant hit.Some? && hit.value < i ==> PressedAs(hit.value)
        invariant !(hit.Some? && hit.value < i) ==> PressedAs(ButtonCount)
      {
        if OnButton(i, screen, pos) {
          Press(i);
        }
      }
    }

    /** One event of the `events` loop: QUIT stops the meter, a mouse press goes to the buttons. */
    method HandleEvent(ev: Event)
      requires Valid()
      modifies this`running, this`aWeighting, this`speechEnabled, this`showGraph, this`loud, this`quiet
      ensures Valid()
      ensures running == (old(running) && ev.kind != Quit)
      ensures ev.kind != Quit ==> PressedAs(PressTarget(screen, ev))
      ensures ev.kind == Quit ==> unchanged(this`aWeighting, this`speechEnabled, this`showGraph, this`loud, this`quiet)
    {
      if ev.kind == Quit {
        running := false;
      } else if ev.kind == MouseButtonDown && ev.pos.Some? {
        Click(ev.pos.value);
      }
    }

    /**
     * The `events` loop: the meter keeps running unless one of the polled
     * events is QUIT, and every mouse press of the batch acts on the
     * button it lands on, in order; the thresholds follow the final
     * speech toggle.
     */
    method HandleEvents(polled: seq<Event>)
      requires Valid()
      modifies this`running, this`aWeighting, this`speechEnabled, this`showGraph, this`loud, this`quiet
      ensures Valid()
      ensures running <==> old(running) && forall j :: 0 <= j < |polled| ==> polled[j].kind != Quit
      ensures Settings() == AfterPresses(old(Settings()), Targets(screen, polled))
    {
      ghost var t0 := Settings();
      ghost var ks: seq<nat> := [];
      for i := 0 to |polled|
        invariant Valid()
        invariant running <==> old(running) && forall j :: 0 <= j < i ==> polled[j].kind != Quit
        invariant ks == Targets(screen, polled[..i])
        invariant Settings() == AfterPresses(t0, ks)
      {
        HandleNext(polled[i], t0, ks);
        NoQuitExtend(polled, i);
        TargetsExtend(screen, polled, i);
        ks := ks + [PressTarget(screen, polled[i])];
      }
      assert polled[..|polled|] == polled;
    }

    /** One more event of the batch: its press, if any, joins the fold. */
    method HandleNext(ev: Event, ghost t0: Toggles, ghost ks: seq<nat>)
      requires Valid() && Settings() == AfterPresses(t0, ks)
      modifies this`running, this`aWeighting, this`speechEnabled, this`showGraph, this`loud, this`quiet
      ensures Valid() && Settings() == AfterPresses(t0, ks + [PressTarget(screen, ev)])
      ensures running == (old(running) && ev.kind != Quit)
    {
      ghost var k := PressTarget(screen, ev);
      PressesExtend(t0, ks, k);
      HandleEvent(ev);
    }
  }
}
