/**
 * The level computer shared by the three versions of the meter: the root
 * mean square of a block of samples, its conversion to a clamped level in
 * [0, 48] (0 = loudest, 48 = silence), and the data path of one `read`.
 *
 * The floating-point numerics the source takes from `math`, numpy and scipy
 * (square root, base-10 logarithm, the A-weighting and Butterworth filters)
 * are not modelled; they are handed in as uninterpreted functions in a
 * `Numerics` record.
 */
module Levels {
  import opened Base

  type Signal = seq<real>

  /** 48 stands for silence: the value a zero rms is mapped to. */
  const Silence: real := 48.0

  datatype Numerics = Numerics(
    sqrt: real -> real,
    log10: real -> real,
    aWeight: Signal -> Signal,    // lfilter(B, A, data) with the A-weighting coefficients
    lowPass: Signal -> Signal,    // butter_pass_filter(data, split_frequency, rate, 'low')
    highPass: Signal -> Signal)   // butter_pass_filter(data, split_frequency, rate, 'high')

  /** scipy's lfilter returns as many samples as it is given. */
  ghost predicate FiltersKeepLength(num: Numerics) {
    && (forall s: Signal :: |num.aWeight(s)| == |s|)
    && (forall s: Signal :: |num.lowPass(s)| == |s|)
    && (forall s: Signal :: |num.highPass(s)| == |s|)
  }

  predicate InRange(x: real) { 0.0 <= x <= 48.0 }

  function Abs(x: real): real { if x < 0.0 then -x else x }

  // ---------------------------------------------------------------- rms

  /** A sample scaled to full scale: `sample * (1 / 32768)`. */
  function Scaled(sample: real): real { sample * (1.0 / 32768.0) }

  /** The sum the rms loop accumulates, over the samples in order. */
  function SumSquares(s: Signal): real
  {
    if s == [] then 0.0 else SumSquares(s[..|s| - 1]) + Scaled(s[|s| - 1]) * Scaled(s[|s| - 1])
  }

  function MeanSquare(s: Signal): real
    requires |s| > 0
  {
    SumSquares(s) / (|s| as real)
  }

  /** `rms(shorts)` for a non-empty block. */
  function RmsOf(s: Signal, num: Numerics): real
    requires |s| > 0
  {
    num.sqrt(MeanSquare(s))
  }

  /**
   * The rms loop: sums the squared scaled samples, then divides by the
   * count, which raises ZeroDivisionError on an empty block.
   */
  method Rms(shorts: Signal, num: Numerics) returns (r: Result<real>)
    ensures r.Failure? <==> |shorts| == 0
    ensures r.Failure? ==> r.error == ZeroDivisionError
    ensures |shorts| > 0 ==> r == Success(num.sqrt(MeanSquare(shorts)))
  {
    var count := |shorts|;
    var sumSquares := 0.0;
    for i := 0 to count
      invariant sumSquares == SumSquares(shorts[..i])
    {
      var n := shorts[i] * (1.0 / 32768.0);
      assert shorts[..i + 1][..i] == shorts[..i];
      sumSquares := sumSquares + n * n;
    }
    if count == 0 {
      return Failure(ZeroDivisionError);
    }
    assert shorts[..count] == shorts;
    r := Success(num.sqrt(sumSquares / count as real));
  }

  predicate IsInt16(x: real) { -32768.0 <= x <= 32767.0 }

  lemma ScaledSquareAtMostOne(x: real)
    requires IsInt16(x)
    ensures 0.0 <= Scaled(x) * Scaled(x) <= 1.0
  {
    var n := Scaled(x);
    assert -1.0 <= n <= 1.0;
    if n >= 0.0 {
      assert n * n <= 1.0 * n;
    } else {
      assert n * n <= (-1.0) * n;
    }
  }

  lemma {:induction false} SumSquaresBounds(s: Signal)
    requires forall i :: 0 <= i < |s| ==> IsInt16(s[i])
    ensures 0.0 <= SumSquares(s) <= |s| as real
  {
    if s != [] {
      SumSquaresBounds(s[..|s| - 1]);
      ScaledSquareAtMostOne(s[|s| - 1]);
    }
  }

  /** For 16-bit samples the mean square lies in [0, 1]: full scale is 1. */
  lemma MeanSquareOfInt16(s: Signal)
    requires |s| > 0
    requires forall i :: 0 <= i < |s| ==> IsInt16(s[i])
    ensures 0.0 <= MeanSquare(s) <= 1.0
  {
    SumSquaresBounds(s);
  }

  // ---------------------------------------------------------------- get_db

  /**
   * `get_db`: 48 when the rms is zero, otherwise |20 log10(rms)|, and the
   * result clamped to [0, 48] by `max(0, min(48, abs(db)))`.
   */
  function GetDb(rms: real, num: Numerics): (db: real)
    ensures InRange(db)
    ensures rms == 0.0 ==> db == Silence
    ensures rms != 0.0 && Abs(20.0 * num.log10(rms)) <= 48.0 ==> db == Abs(20.0 * num.log10(rms))
    ensures rms != 0.0 && Abs(20.0 * num.log10(rms)) >= 48.0 ==> db == 48.0
  {
    var db := if rms != 0.0 then 20.0 * num.log10(rms) else 48.0;
    MaxReal(0.0, MinReal(48.0, Abs(db)))
  }

  /** A full-scale signal (rms 1, log10 1 = 0) reads as the loudest level 0. */
  lemma FullScaleIsLoudest(num: Numerics)
    requires num.log10(1.0) == 0.0
    ensures GetDb(1.0, num) == 0.0
  {
  }

  /**
   * The sentinel 48 is ambiguous: it is produced by silence and by any
   * signal at least 48 dB away from full scale, and by nothing else.
   */
  lemma SilenceSentinel(rms: real, num: Numerics)
    ensures GetDb(rms, num) == Silence <==> rms == 0.0 || Abs(20.0 * num.log10(rms)) >= 48.0
  {
  }

  /**
   * For a signal no louder than full scale (log10 rms at most 0, as for
   * the rms of 16-bit samples), 48 means silence or a signal at least
   * 48 dB below full scale, and the level is how many dB below it is.
   */
  lemma SilenceBelowFullScale(rms: real, num: Numerics)
    requires rms != 0.0 ==> num.log10(rms) <= 0.0
    ensures GetDb(rms, num) == Silence <==> rms == 0.0 || 20.0 * num.log10(rms) <= -48.0
    ensures rms != 0.0 && 20.0 * num.log10(rms) >= -48.0 ==> GetDb(rms, num) == -20.0 * num.log10(rms)
  {
  }

  /** The level of a non-empty block of samples. */
  function Level(s: Signal, num: Numerics): (db: real)
    requires |s| > 0
    ensures InRange(db)
  {
    GetDb(RmsOf(s, num), num)
  }

  // ---------------------------------------------------------------- read

  /** What `read` returns: the level and the data later used by split mode. */
  datatype Block = Block(db: real, data: Signal)

  /**
   * `read` in meter/meter.py and main.py: with A-weighting on, the block is
   * filtered and both the level and the returned data are the filtered
   * samples; otherwise both come from the raw 16-bit samples.
   */
  function ReadBlock(aWeighting: bool, raw: Signal, num: Numerics): (b: Block)
    requires |raw| > 0 && FiltersKeepLength(num)
    ensures |b.data| == |raw|
    ensures b.data == (if aWeighting then num.aWeight(raw) else raw)
    ensures b.db == Level(b.data, num) && InRange(b.db)
  {
    if aWeighting then
      var data := num.aWeight(raw);
      Block(Level(data, num), data)
    else
      Block(Level(raw, num), raw)
  }

  /** One call of `add_value(level, channel)`. */
  datatype Feed = Feed(level: real, channel: nat)

  /** The levels of `feeds` that go to `channel`, in order. */
  function ChannelLevels(feeds: seq<Feed>, channel: nat): (r: seq<real>)
    ensures |r| <= |feeds|
  {
    if feeds == [] then []
    else
      var rest := ChannelLevels(feeds[1..], channel);
      if feeds[0].channel == channel then [feeds[0].level] + rest else rest
  }

  /**
   * The values one iteration of `read_stream1` hands to the channels, in
   * call order, for a block read with the given A-weighting flag: in split
   * mode the low band of the data `read` returned goes to channel 1 and
   * then its high band to channel 0; otherwise the block's level goes to
   * channel 0.
   */
  function SplitFeeds(split: bool, aWeighting: bool, raw: Signal, num: Numerics): (feeds: seq<Feed>)
    requires |raw| > 0 && FiltersKeepLength(num)
    ensures forall i :: 0 <= i < |feeds| ==> InRange(feeds[i].level) && feeds[i].channel < 2
    ensures |feeds| == (if split then 2 else 1)
  {
    var b := ReadBlock(aWeighting, raw, num);
    if split then
      [Feed(Level(num.lowPass(b.data), num), 1), Feed(Level(num.highPass(b.data), num), 0)]
    else
      [Feed(b.db, 0)]
  }

  /**
   * Split mode band-filters the data `read` returned, so with A-weighting on
   * both bands are filtered from the A-weighted samples, not from the raw
   * ones; with it off they are filtered from the raw samples.
   */
  lemma SplitBandsFollowAWeighting(aWeighting: bool, raw: Signal, num: Numerics)
    requires |raw| > 0 && FiltersKeepLength(num)
    ensures var d := if aWeighting then num.aWeight(raw) else raw;
      SplitFeeds(true, aWeighting, raw, num) ==
        [Feed(Level(num.lowPass(d), num), 1), Feed(Level(num.highPass(d), num), 0)]
  {
  }

  /** Outside split mode only channel 0 is fed, with the level of the block. */
  lemma SingleFeedIsBlockLevel(aWeighting: bool, raw: Signal, num: Numerics)
    requires |raw| > 0 && FiltersKeepLength(num)
    ensures SplitFeeds(false, aWeighting, raw, num) ==
      [Feed(Level(if aWeighting then num.aWeight(raw) else raw, num), 0)]
  {
  }

  /**
   * Split routing in main.py's `read_stream1`: channel 0 gets one level, the
   * high band in split mode and the block's level otherwise; channel 1 gets
   * the low band in split mode and nothing at all otherwise (main.py does
   * not flat-line it).
   */
  lemma SplitFeedsRouting(split: bool, aWeighting: bool, raw: Signal, num: Numerics)
    requires |raw| > 0 && FiltersKeepLength(num)
    ensures var b := ReadBlock(aWeighting, raw, num);
      var feeds := SplitFeeds(split, aWeighting, raw, num);
      && ChannelLevels(feeds, 0) == [if split then Level(num.highPass(b.data), num) else b.db]
      && ChannelLevels(feeds, 1) == if split then [Level(num.lowPass(b.data), num)] else []
  {
    var feeds := SplitFeeds(split, aWeighting, raw, num);
    if split {
      assert feeds[1..] == [feeds[1]];
    }
  }
}
