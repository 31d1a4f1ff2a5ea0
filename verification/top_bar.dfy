/**
  * The top bar of the page hides when the visitor scrolls down past 50 pixels and comes back as
  * soon as they scroll up; the header's `adjusted` class follows the top bar's `hide` class. The
  * scroll position is read from the browser and becomes a parameter here.
  */
module TopBar {

  /** How far down the page the top bar may stay visible while scrolling down. */
  const Threshold := 50

  /** The state the scroll handler keeps: the last position seen and the two CSS classes. */
  datatype BarState = BarState(lastScrollTop: int, hidden: bool, adjusted: bool) {
    /** The header is adjusted exactly when the top bar is hidden. */
    predicate InSync() {
      hidden == adjusted
    }
  }

  /**
    * The state after the page loads at `initialScrollTop`: the last position is still 0 and the
    * top bar starts hidden when the page opens scrolled down past the threshold.
    */
  function Initial(initialScrollTop: int): (s: BarState)
    ensures s.InSync()
    ensures s.lastScrollTop == 0
    ensures s.hidden <==> initialScrollTop > Threshold
  {
    var scrolledPast := initialScrollTop > Threshold;
    BarState(0, scrolledPast, scrolledPast)
  }

  /**
    * One scroll event at `scrollTop`: moving down to past the threshold hides the bar, moving up
    * shows it, anything else leaves it as it is; the position is remembered in every case.
    */
  function Step(s: BarState, scrollTop: int): (r: BarState)
    ensures r.lastScrollTop == scrollTop
    ensures scrollTop > s.lastScrollTop && scrollTop > Threshold ==> r.hidden && r.adjusted
    ensures scrollTop < s.lastScrollTop ==> !r.hidden && !r.adjusted
    ensures (s.lastScrollTop <= scrollTop <= Threshold) || scrollTop == s.lastScrollTop ==>
      r.hidden == s.hidden && r.adjusted == s.adjusted
  {
    if scrollTop > s.lastScrollTop && scrollTop > Threshold then
      BarState(scrollTop, true, true)
    else if scrollTop < s.lastScrollTop then
      BarState(scrollTop, false, false)
    else
      s.(lastScrollTop := scrollTop)
  }

  /** The state after the scroll events at `positions`, in order. */
  function Replay(s: BarState, positions: seq<int>): BarState
    decreases |positions|
  {
    if positions == [] then s else Replay(Step(s, positions[0]), positions[1..])
  }

  /** A scroll event that does not move the page changes nothing. */
  lemma StepStill(s: BarState)
    ensures Step(s, s.lastScrollTop) == s
  {
  }

  /** Repeating the same scroll event has no further effect. */
  lemma StepIdempotent(s: BarState, scrollTop: int)
    ensures Step(Step(s, scrollTop), scrollTop) == Step(s, scrollTop)
  {
  }

  /** Every scroll event keeps the header and the top bar in step, whatever the positions. */
  lemma {:induction false} ReplayKeepsInSync(s: BarState, positions: seq<int>)
    requires s.InSync()
    ensures Replay(s, positions).InSync()
    decreases |positions|
  {
    if positions != [] {
      ReplayKeepsInSync(Step(s, positions[0]), positions[1..]);
    }
  }

  /** After a non-empty run of events the last position remembered is the last one scrolled to. */
  lemma {:induction false} ReplayRemembersLast(s: BarState, positions: seq<int>)
    requires positions != []
    ensures Replay(s, positions).lastScrollTop == positions[|positions| - 1]
    decreases |positions|
  {
    if |positions| > 1 {
      ReplayRemembersLast(Step(s, positions[0]), positions[1..]);
    }
  }

  /**
    * The top bar is hidden at the end only if it was hidden at the start or the page was, at
    * some event, past the threshold.
    */
  lemma {:induction false} HiddenOnlyPastThreshold(s: BarState, positions: seq<int>)
    requires Replay(s, positions).hidden
    ensures s.hidden || exists i :: 0 <= i < |positions| && positions[i] > Threshold
    decreases |positions|
  {
    if positions != [] {
      var t := Step(s, positions[0]);
      HiddenOnlyPastThreshold(t, positions[1..]);
      if !s.hidden && !t.hidden {
        var i :| 0 <= i < |positions[1..]| && positions[1..][i] > Threshold;
        assert positions[i + 1] > Threshold;
      }
    }
  }

  /**
    * While the page stays within the threshold the top bar never hides: a bar visible at the
    * start is visible after every event.
    */
  lemma {:induction false} VisibleWithinThreshold(s: BarState, positions: seq<int>)
    requires !s.hidden
    requires forall i :: 0 <= i < |positions| ==> positions[i] <= Threshold
    ensures !Replay(s, positions).hidden
    decreases |positions|
  {
    if positions != [] {
      VisibleWithinThreshold(Step(s, positions[0]), positions[1..]);
    }
  }

  /** The scroll handler's state on the page. */
  class ScrollHandler {
    var lastScrollTop: int
    var topBarHidden: bool
    var headerAdjusted: bool

    /** The state as one value. */
    function State(): BarState
      reads this
    {
      BarState(lastScrollTop, topBarHidden, headerAdjusted)
    }

    /** The page loads scrolled to `initialScrollTop`. */
    constructor (initialScrollTop: int)
      ensures State() == Initial(initialScrollTop)
    {
      lastScrollTop := 0;
      topBarHidden := false;
      headerAdjusted := false;
      if initialScrollTop > Threshold {
        topBarHidden := true;
        headerAdjusted := true;
      }
    }

    /** The scroll listener, run with the page scrolled to `scrollTop`. */
    method OnScroll(scrollTop: int)
      modifies this
      ensures State() == Step(old(State()), scrollTop)
    {
      if scrollTop > lastScrollTop && scrollTop > Threshold {
        topBarHidden := true;
        headerAdjusted := true;
      } else if scrollTop < lastScrollTop {
        topBarHidden := false;
        headerAdjusted := false;
      }
      lastScrollTop := scrollTop;
    }
  }
}
