/**
 * Per-channel history: the bounded first-in first-out windows of recent
 * levels, the rolling statistic taken over a window (the mean in main.py
 * and SPL_meter.py, the minimum in meter/meter.py), and the three-way
 * classification against a (quiet, loud) threshold pair.
 */
module History {
  import opened Base
  import opened Levels

  // ---------------------------------------------------------------- windows

  /** The last `n` entries of `s`, or all of `s` when it holds at most `n`. */
  function Recent<T>(s: seq<T>, n: nat): (r: seq<T>)
    ensures |r| == if |s| <= n then |s| else n
  {
    if |s| <= n then s else s[|s| - n..]
  }

  /** The window is a suffix of the list: its last |r| entries. */
  lemma RecentIsSuffix<T>(s: seq<T>, n: nat)
    ensures Recent(s, n) == s[|s| - |Recent(s, n)|..]
  {
  }

  /**
   * main.py's update: append, then pop the oldest entry once if the list
   * is now longer than `cap`.
   */
  function PushOnce<T>(s: seq<T>, x: T, cap: nat): (r: seq<T>)
    ensures |s| <= cap ==> |r| <= cap
    ensures cap > 0 ==> r != [] && r[|r| - 1] == x
  {
    var t := s + [x];
    if |t| > cap then t[1..] else t
  }

  /** While a list is within its bound, popping once is keeping the most recent entries. */
  lemma PushOnceIsRecent<T>(s: seq<T>, x: T, cap: nat)
    requires |s| <= cap
    ensures PushOnce(s, x, cap) == Recent(s + [x], cap)
  {
  }

  /** Keeping the last `n` after each arrival is keeping the last `n` of everything. */
  lemma RecentOfRecent<T>(s: seq<T>, x: T, n: nat)
    ensures Recent(Recent(s, n) + [x], n) == Recent(s + [x], n)
  {
    var t := s + [x];
    if |s| > n {
      var r := Recent(s, n);
      assert r + [x] == t[|s| - n..];
    }
  }

  /** A window after feeding `xs` one by one, bounded to `n` entries at each step. */
  function FeedAll<T>(s: seq<T>, xs: seq<T>, n: nat): seq<T>
    decreases xs
  {
    if xs == [] then s else FeedAll(Recent(s + [xs[0]], n), xs[1..], n)
  }

  /**
   * Whatever is fed, a bounded window holds the `n` most recent values of
   * the whole stream, in arrival order (oldest evicted first).
   */
  lemma {:induction false} FeedAllIsRecent<T>(s: seq<T>, xs: seq<T>, n: nat)
    requires |s| <= n
    ensures FeedAll(s, xs, n) == Recent(s + xs, n)
    decreases xs
  {
    if xs == [] {
      assert s + xs == s;
    } else {
      var t, rest := s + [xs[0]], xs[1..];
      var s' := Recent(t, n);
      assert FeedAll(s, xs, n) == FeedAll(s', rest, n);
      FeedAllIsRecent(s', rest, n);
      RecentAppend(t, rest, n);
      assert t + rest == s + xs;
    }
  }

  lemma {:induction false} RecentAppend<T>(s: seq<T>, ys: seq<T>, n: nat)
    ensures Recent(Recent(s, n) + ys, n) == Recent(s + ys, n)
  {
    if |s| > n {
      var r := Recent(s, n);
      assert r + ys == (s + ys)[|s| - n..];
    }
  }

  /**
   * A window kept to `n` entries is the last `n` entries of a longer
   * history kept to `m >= n` entries of the same stream.
   */
  lemma RecentOfLonger<T>(s: seq<T>, m: nat, n: nat)
    requires n <= m
    ensures Recent(Recent(s, m), n) == Recent(s, n)
  {
    if |s| > m {
      var r := Recent(s, m);
      assert r[|r| - n..] == s[|s| - n..];
    }
  }

  /**
   * The list updates main.py's `add_value` and SPL_meter.py's
   * `read_stream1` make for one level: it is appended to the averaging
   * window and to the graph line, and each then pops its oldest entry once
   * if it is over its bound. A window that was the newest entries of the
   * line stays so.
   */
  method PushLevel(window: seq<real>, line: seq<real>, val: real, average: nat, graph: nat)
    returns (s: seq<real>, g: seq<real>)
    requires 0 < average <= graph
    requires |line| <= graph && window == Recent(line, average)
    ensures s == Recent(window + [val], average) && g == Recent(line + [val], graph)
    ensures s != [] && |g| <= graph && s == Recent(g, average)
    ensures (forall i :: 0 <= i < |line| ==> InRange(line[i])) && InRange(val) ==>
      forall i :: 0 <= i < |g| ==> InRange(g[i])
  {
    s := window + [val];
    g := line + [val];
    if |s| > average {
      s := s[1..];
    }
    if |g| > graph {
      g := g[1..];
    }
    PushOnceIsRecent(window, val, average);
    PushOnceIsRecent(line, val, graph);
    RecentOfRecent(line, val, average);
    RecentOfLonger(line + [val], graph, average);
  }

  /** Python's `s[-n:]`: for n = 0 this is `s[0:]`, the whole list. */
  function PyTail<T>(s: seq<T>, n: nat): seq<T>
  {
    if n == 0 then s else s[Max(0, |s| - n)..]
  }

  /** `s[-n:]` is the whole list for n = 0 and the last n entries otherwise. */
  lemma PyTailIsRecent<T>(s: seq<T>, n: nat)
    ensures n == 0 ==> PyTail(s, n) == s
    ensures n > 0 ==> PyTail(s, n) == Recent(s, n)
  {
  }

  // ---------------------------------------------------------------- statistics

  /** The rolling statistic a version computes over its averaging window. */
  datatype Statistic = Mean | Minimum

  /** `sum(s)`, accumulated from the first entry on. */
  function Sum(s: seq<real>): real
  {
    if s == [] then 0.0 else Sum(s[..|s| - 1]) + s[|s| - 1]
  }

  /** `min(s)` on a non-empty list: an entry of `s` no larger than any other. */
  function MinOf(s: seq<real>): (m: real)
    requires s != []
    ensures m in s
    ensures forall i :: 0 <= i < |s| ==> m <= s[i]
  {
    if |s| == 1 then s[0]
    else
      var m := MinOf(s[..|s| - 1]);
      assert forall i :: 0 <= i < |s| - 1 ==> s[..|s| - 1][i] == s[i];
      MinReal(m, s[|s| - 1])
  }

  function Aggregate(stat: Statistic, w: seq<real>): real
    requires w != []
  {
    match stat
    case Mean => Sum(w) / (|w| as real)
    case Minimum => MinOf(w)
  }

  lemma {:induction false} SumBounds(s: seq<real>)
    requires forall i :: 0 <= i < |s| ==> InRange(s[i])
    ensures 0.0 <= Sum(s) <= 48.0 * |s| as real
  {
    if s != [] {
      SumBounds(s[..|s| - 1]);
    }
  }

  /** Either statistic of levels in [0, 48] is again a level in [0, 48]. */
  lemma AggregateInRange(stat: Statistic, w: seq<real>)
    requires w != []
    requires forall i :: 0 <= i < |w| ==> InRange(w[i])
    ensures InRange(Aggregate(stat, w))
  {
    if stat == Mean {
      SumBounds(w);
      var n := |w| as real;
      assert Sum(w) / n <= (48.0 * n) / n;
    }
  }

  /** The minimum of a window is at most its newest entry. */
  lemma MinimumAtMostNewest(w: seq<real>)
    requires w != []
    ensures Aggregate(Minimum, w) <= w[|w| - 1]
  {
  }

  lemma {:induction false} SumOfConstant(s: seq<real>, c: real)
    requires forall i :: 0 <= i < |s| ==> s[i] == c
    ensures Sum(s) == c * |s| as real
  {
    if s != [] {
      SumOfConstant(s[..|s| - 1], c);
    }
  }

  /**
   * The average main.py and SPL_meter.py keep for a channel: 48 before any
   * level arrives (or after the channel is cleared), the mean of the window
   * afterwards.
   */
  function ShownAverage(w: seq<real>): real
  {
    if w == [] then Silence else Aggregate(Mean, w)
  }

  /** Levels in [0, 48] give a shown average in [0, 48]. */
  lemma ShownAverageInRange(w: seq<real>)
    requires forall i :: 0 <= i < |w| ==> InRange(w[i])
    ensures InRange(ShownAverage(w))
  {
    if w != [] {
      AggregateInRange(Mean, w);
    }
  }

  /** The level a VU bar is drawn at: the newest of the window, 48 when it is empty. */
  function BarLevel(w: seq<real>): real
  {
    if w == [] then Silence else w[|w| - 1]
  }

  /** A window that holds only the silence sentinel aggregates to it. */
  lemma FlatLineAggregate(stat: Statistic, w: seq<real>)
    requires w != []
    requires forall i :: 0 <= i < |w| ==> w[i] == Silence
    ensures Aggregate(stat, w) == Silence
  {
    SumOfConstant(w, Silence);
  }

  // ---------------------------------------------------------------- classification

  /**
   * The indicator states: LOW is "too quiet", MID is acceptable, HIGH is
   * "too loud" (levels are attenuations, so a larger value is quieter).
   */
  datatype IndicatorState = Low | Mid | High

  /**
   * `LOW if avg >= quiet else HIGH if avg <= loud else MID`: the quiet test
   * comes first, so it wins when both hold.
   */
  function Classify(avg: real, quiet: real, loud: real): (s: IndicatorState)
    ensures s == Low <==> avg >= quiet
    ensures s == High <==> avg < quiet && avg <= loud
    ensures s == Mid <==> loud < avg < quiet
  {
    if avg >= quiet then Low else if avg <= loud then High else Mid
  }

  /** Loudness order of the states: too loud, acceptable, too quiet. */
  function Rank(s: IndicatorState): nat
  {
    match s
    case High => 0
    case Mid => 1
    case Low => 2
  }

  /** For fixed thresholds, a larger (quieter) average never gives a louder state. */
  lemma ClassifyMonotone(a: real, b: real, quiet: real, loud: real)
    requires a <= b
    ensures Rank(Classify(a, quiet, loud)) <= Rank(Classify(b, quiet, loud))
  {
  }

  /** Some average classifies as MID exactly when the loud threshold lies below the quiet one. */
  lemma MidBandExists(quiet: real, loud: real)
    ensures (exists a :: Classify(a, quiet, loud) == Mid) <==> loud < quiet
  {
    if loud < quiet {
      assert Classify((loud + quiet) / 2.0, quiet, loud) == Mid;
    }
  }

  datatype Colour = Orange | Red | Green

  /**
   * main.py and SPL_meter.py: ORANGE when the average is at or above the
   * quiet threshold, else RED when at or below the loud one, else GREEN.
   */
  function LevelColour(v: real, quiet: real, loud: real): (c: Colour)
    ensures c == Orange <==> v >= quiet
    ensures c == Red <==> v < quiet && v <= loud
  {
    if v >= quiet then Orange else if v <= loud then Red else Green
  }
}
