/**
 * The infinite-scroll directive (`InfiniteScrollerDirective`). Its scroll
 * stream maps each scroll event to a sample, pairs consecutive samples,
 * keeps the pairs in which the user scrolls down past the configured
 * percentage and calls the callback once per kept pair, optionally after one
 * call made up front. Here the stream is a two-sample state machine: the
 * directive remembers the previous sample and counts callback calls.
 *
 * The ratio test is done in exact integer arithmetic, cross-multiplied.
 */
module InfiniteScroll {
  import opened Common

  /** A sample of the scroll box: scroll height, scroll top and client height. */
  datatype ScrollPosition = ScrollPosition(sH: int, sT: int, cH: int)

  /** The sample pair the stream starts with when `immediateCallback` is set. */
  const DEFAULT_SCROLL_POSITION: ScrollPosition := ScrollPosition(0, 0, 0)

  /** `isUserScrollingDown`: the scroll top grew strictly from one sample to the next. */
  predicate IsUserScrollingDown(prev: ScrollPosition, cur: ScrollPosition)
  {
    prev.sT < cur.sT
  }

  /**
   * `isScrollExpectedPercent`: `(sT + cH) / sH > scrollPercent / 100`, with
   * both sides multiplied out. A zero scroll height divides to plus or minus
   * infinity, or to NaN when `sT + cH` is zero too, so only a positive
   * `sT + cH` passes then; an unset percentage divides to NaN and nothing
   * passes.
   */
  predicate IsScrollExpectedPercent(pos: ScrollPosition, scrollPercent: Option<int>)
  {
    match scrollPercent
    case None => false
    case Some(percent) =>
      if pos.sH > 0 then 100 * (pos.sT + pos.cH) > percent * pos.sH
      else if pos.sH < 0 then 100 * (pos.sT + pos.cH) < percent * pos.sH
      else pos.sT + pos.cH > 0
  }

  /** For a non-zero scroll height the integer test is the division the directive performs. */
  lemma ExpectedPercentIsRatio(pos: ScrollPosition, percent: int)
    requires pos.sH != 0
    ensures IsScrollExpectedPercent(pos, Some(percent)) <==>
            (pos.sT + pos.cH) as real / pos.sH as real > percent as real / 100.0
  {
  }

  /** The stream's filter: a pair fires when the user scrolls down and the newer sample is past the threshold. */
  predicate Qualifies(prev: ScrollPosition, cur: ScrollPosition, scrollPercent: Option<int>)
  {
    IsUserScrollingDown(prev, cur) && IsScrollExpectedPercent(cur, scrollPercent)
  }

  /** The pair that ends with the newest of `samples` is the only one a new sample adds. */
  function ScrollCallbacks(samples: seq<ScrollPosition>, scrollPercent: Option<int>): (n: nat)
    ensures n <= if samples == [] then 0 else |samples| - 1
  {
    if |samples| < 2 then 0
    else
      ScrollCallbacks(samples[..|samples| - 1], scrollPercent) +
      (if Qualifies(samples[|samples| - 2], samples[|samples| - 1], scrollPercent) then 1 else 0)
  }

  /** `pairwise`: each sample paired with the one after it. */
  function Pairwise(samples: seq<ScrollPosition>): (r: seq<(ScrollPosition, ScrollPosition)>)
    ensures |r| == if samples == [] then 0 else |samples| - 1
    ensures forall i :: 0 <= i < |r| ==> r[i] == (samples[i], samples[i + 1])
  {
    if |samples| < 2 then [] else [(samples[0], samples[1])] + Pairwise(samples[1..])
  }

  function QualifyingPair(scrollPercent: Option<int>): ((ScrollPosition, ScrollPosition)) -> bool
  {
    (pair: (ScrollPosition, ScrollPosition)) => Qualifies(pair.0, pair.1, scrollPercent)
  }

  /**
   * The callbacks made for a run of samples are exactly the pairs `pairwise`
   * produces that pass the filter: one call per qualifying pair, with no
   * de-duplication.
   */
  lemma {:induction false} CallbacksAreQualifyingPairs(samples: seq<ScrollPosition>, scrollPercent: Option<int>)
    ensures ScrollCallbacks(samples, scrollPercent) ==
            |Filter(QualifyingPair(scrollPercent), Pairwise(samples))|
  {
    if |samples| >= 2 {
      var n := |samples|;
      var front := samples[..n - 1];
      CallbacksAreQualifyingPairs(front, scrollPercent);
      var last := (samples[n - 2], samples[n - 1]);
      var pairs, frontPairs := Pairwise(samples), Pairwise(front);
      forall i | 0 <= i < |pairs| ensures pairs[i] == (frontPairs + [last])[i] {
        if i < |frontPairs| {
          assert front[i] == samples[i] && front[i + 1] == samples[i + 1];
        }
      }
      assert pairs == frontPairs + [last];
      assert (frontPairs + [last])[..|frontPairs|] == frontPairs;
    } else {
      assert Pairwise(samples) == [];
    }
  }

  /** A run of samples whose scroll top never grows makes no call, whatever the ratios. */
  lemma {:induction false} NoCallbackWithoutScrollingDown(samples: seq<ScrollPosition>, scrollPercent: Option<int>)
    requires forall i :: 0 < i < |samples| ==> samples[i].sT <= samples[i - 1].sT
    ensures ScrollCallbacks(samples, scrollPercent) == 0
  {
    if |samples| >= 2 {
      NoCallbackWithoutScrollingDown(samples[..|samples| - 1], scrollPercent);
    }
  }

  /** When every consecutive pair qualifies, every one of them makes a call. */
  lemma {:induction false} EveryQualifyingPairCalls(samples: seq<ScrollPosition>, scrollPercent: Option<int>)
    requires samples != []
    requires forall i :: 0 < i < |samples| ==> Qualifies(samples[i - 1], samples[i], scrollPercent)
    ensures ScrollCallbacks(samples, scrollPercent) == |samples| - 1
  {
    if |samples| >= 2 {
      EveryQualifyingPairCalls(samples[..|samples| - 1], scrollPercent);
    }
  }

  /** The zero sample pair used for the up-front call would not pass the filter itself. */
  lemma DefaultPairDoesNotQualify(scrollPercent: Option<int>)
    ensures !Qualifies(DEFAULT_SCROLL_POSITION, DEFAULT_SCROLL_POSITION, scrollPercent)
  {
  }

  /** At 80 percent, scrolling from top 700 to top 820 in a 1000-high box with a 200-high view makes one call. */
  lemma ScrollingDownPastThresholdCalls()
    ensures ScrollCallbacks([ScrollPosition(1000, 700, 200), ScrollPosition(1000, 820, 200)], Some(80)) == 1
  {
  }

  /** Scrolling back up from top 820 to top 700 makes no call, although the ratio is past 80 percent. */
  lemma ScrollingUpDoesNotCall()
    ensures ScrollCallbacks([ScrollPosition(1000, 820, 200), ScrollPosition(1000, 700, 200)], Some(80)) == 0
  {
  }

  class InfiniteScroller {
    /** Whether a `scrollCallback` was bound when the view was initialised. */
    const hasCallback: bool
    const immediateCallback: bool
    const scrollPercent: Option<int>
    /** Whether the scroll stream was set up and subscribed. */
    var listening: bool
    /** The sample `pairwise` holds back for the next pair. */
    var prev: Option<ScrollPosition>
    /** Calls made to the callback. */
    var calls: nat
    /** Whether `ngAfterViewInit` has run. */
    ghost var initialized: bool
    /** Samples taken from scroll events since the stream was subscribed. */
    ghost var samples: seq<ScrollPosition>

    /** The call count is the up-front call, if any, plus one per qualifying pair of the samples seen. */
    ghost predicate Valid()
      reads this
    {
      (listening ==> initialized && hasCallback) &&
      (!listening ==> calls == 0 && samples == [] && prev == None) &&
      (listening ==>
         calls == (if immediateCallback then 1 else 0) + ScrollCallbacks(samples, scrollPercent) &&
         prev == (if samples == [] then None else Some(samples[|samples| - 1])))
    }

    constructor (hasCallback: bool, immediateCallback: bool, scrollPercent: Option<int>)
      ensures Valid() && !initialized
      ensures this.hasCallback == hasCallback && this.immediateCallback == immediateCallback
      ensures this.scrollPercent == scrollPercent
      ensures !listening && prev == None && calls == 0 && samples == []
    {
      this.hasCallback := hasCallback;
      this.immediateCallback := immediateCallback;
      this.scrollPercent := scrollPercent;
      listening := false;
      prev := None;
      calls := 0;
      initialized := false;
      samples := [];
    }

    /**
     * `ngAfterViewInit`: without a callback nothing is set up; otherwise the
     * stream is subscribed, and with `immediateCallback` the callback is
     * called once before any scroll event, bypassing the filter.
     */
    method AfterViewInit()
      requires Valid() && !initialized
      modifies this`listening, this`calls, this`initialized
      ensures Valid() && initialized
      ensures listening == hasCallback
      ensures calls == if hasCallback && immediateCallback then 1 else 0
      ensures prev == None && samples == []
    {
      initialized := true;
      if !hasCallback {
        return;
      }
      listening := true;
      if immediateCallback {
        calls := calls + 1;
      }
    }

    /**
     * A scroll event with sample `cur`: ignored when nothing listens;
     * otherwise it is paired with the previous sample, the callback is called
     * when that pair qualifies, and `cur` becomes the previous sample.
     */
    method OnScroll(cur: ScrollPosition)
      requires Valid()
      modifies this`prev, this`calls, this`samples
      ensures Valid()
      ensures !listening ==> calls == old(calls) && prev == old(prev) && samples == old(samples)
      ensures listening ==> samples == old(samples) + [cur] && prev == Some(cur)
      ensures listening ==>
                calls == old(calls) + (if old(prev).Some? && Qualifies(old(prev).value, cur, scrollPercent) then 1 else 0)
    {
      if !listening {
        return;
      }
      if prev.Some? && IsUserScrollingDown(prev.value, cur) && IsScrollExpectedPercent(cur, scrollPercent) {
        calls := calls + 1;
      }
      assert (samples + [cur])[..|samples|] == samples;
      samples := samples + [cur];
      prev := Some(cur);
    }
  }

  /** Without a callback, no run of scroll events ever calls it. */
  method NoCallbackNoCalls(events: seq<ScrollPosition>, immediateCallback: bool, scrollPercent: Option<int>)
    returns (calls: nat)
    ensures calls == 0
  {
    var d := new InfiniteScroller(false, immediateCallback, scrollPercent);
    d.AfterViewInit();
    var k := 0;
    while k < |events|
      invariant 0 <= k <= |events|
      invariant d.Valid() && !d.listening
    {
      d.OnScroll(events[k]);
      k := k + 1;
    }
    calls := d.calls;
  }

  /**
   * With a callback bound, a run of scroll events calls it once per
   * qualifying consecutive pair, plus once up front with `immediateCallback`.
   */
  method CallbackCount(events: seq<ScrollPosition>, immediateCallback: bool, scrollPercent: Option<int>)
    returns (calls: nat)
    ensures calls == (if immediateCallback then 1 else 0) + ScrollCallbacks(events, scrollPercent)
  {
    var d := new InfiniteScroller(true, immediateCallback, scrollPercent);
    d.AfterViewInit();
    var k := 0;
    while k < |events|
      invariant 0 <= k <= |events|
      invariant d.Valid() && d.listening && d.samples == events[..k]
      invariant d.immediateCallback == immediateCallback && d.scrollPercent == scrollPercent
    {
      d.OnScroll(events[k]);
      k := k + 1;
    }
    assert events[..k] == events;
    calls := d.calls;
  }
}
