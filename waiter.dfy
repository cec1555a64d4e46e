/**
 * ScreenMetricsWaiter and its WaitRequest as objects whose fields the
 * methods update, each method proved against the matching function of Barrier.
 */
module Waiter {
  import Barrier

  class WaitRequest {
    /** mViews.length */
    const viewCount: nat
    /** mWaitCount */
    var waitCount: int
    /** mSuccessRunnable != null */
    var armed: bool
    /** mWaitingRunnable is queued on the handler */
    var posted: bool
    /** views whose one-shot pre-draw observer is registered */
    var observers: set<nat>
    /** times the continuation has run */
    var runs: nat

    function State(): Barrier.Request
      reads this
    {
      Barrier.Request(viewCount, waitCount, armed, posted, observers, runs)
    }

    /** A request over `viewCount` views, not yet started. */
    constructor (viewCount: nat)
      ensures State() == Barrier.Created(viewCount)
    {
      this.viewCount := viewCount;
      waitCount, armed, posted, observers, runs := 0, false, false, {}, 0;
    }

    /** start: the source starts every request once, right after creating it. */
    method Start()
      requires State() == Barrier.Created(viewCount)
      modifies this
      ensures State() == Barrier.Start(old(State()))
      ensures Barrier.Inv(State())
    {
      armed := true;
      waitCount := viewCount;
      posted := true;
    }

    method CountDown()
      modifies this
      ensures State() == Barrier.CountDown(old(State()))
    {
      waitCount := waitCount - 1;
      if waitCount == 0 && armed {
        runs := runs + 1;
        armed := false;
      }
    }

    /** The handler runs mWaitingRunnable (if it is still queued); `sizedViews` are the views that already have a size. */
    method RunWaiting(sizedViews: set<nat>)
      modifies this
      ensures State() == Barrier.RunWaiting(old(State()), sizedViews)
    {
      if !posted {
        return;
      }
      posted := false;
      ghost var start := State();
      var i := 0;
      while i < viewCount
        invariant 0 <= i <= viewCount
        invariant State() == Barrier.VisitViews(start, sizedViews, i)
      {
        if i in sizedViews {
          CountDown();
        } else {
          observers := observers + {i};
        }
        i := i + 1;
      }
    }

    /** A pre-draw pass of one view. */
    method PreDraw(view: nat)
      modifies this
      ensures State() == Barrier.PreDraw(old(State()), view)
    {
      if view in observers {
        observers := observers - {view};
        CountDown();
      }
    }

    method Cancel()
      modifies this
      ensures State() == Barrier.Cancel(old(State()))
    {
      posted := false;
      armed := false;
    }
  }

  class ScreenMetricsWaiter {
    /** mLastWaitRequest */
    var last: WaitRequest?

    constructor ()
      ensures last == null
    {
      last := null;
    }

    /** waitFor: a new request over `viewCount` views becomes the last one. */
    method WaitFor(viewCount: nat) returns (r: WaitRequest)
      modifies this
      ensures fresh(r) && last == r
      ensures r.State() == Barrier.Created(viewCount)
    {
      r := new WaitRequest(viewCount);
      last := r;
    }

    /** cancelLastRequest: the last request, if any, is cancelled and forgotten, so its continuation never runs. */
    method CancelLastRequest()
      modifies this, last
      ensures last == null
      ensures old(last) != null ==> old(last).State() == Barrier.Cancel(old(last.State()))
    {
      if last != null {
        last.Cancel();
        last := null;
      }
    }
  }
}
