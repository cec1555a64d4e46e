/**
 * MraidController as an object whose fields its handlers update in place.
 * Each method is proved against the function of ControllerSpec that says
 * what the command leaves behind, and keeps the controller invariant.
 */
module Controller {
  import opened Wrappers
  import opened ViewStates
  import opened Geometry
  import opened Orientation
  import opened ControllerSpec
  import Barrier
  import ControllerProps
  import opened Waiter

  class MraidController {
    const placement: PlacementType
    const metrics: ScreenMetrics
    /** The dip conversion and close-region placement the controller relies on. */
    const env: Env
    /** mMraidListener != null */
    const hasMraidListener: bool
    /** mOnCloseButtonListener != null */
    const hasCloseListener: bool
    /** mScreenMetricsWaiter */
    const waiter: ScreenMetricsWaiter

    /** mViewState */
    var viewState: ViewState
    /** mMraidWebView != null */
    var hasWebView: bool
    var primaryLoaded: bool
    /** mTwoPartBridge.isLoaded() */
    var twoPartLoaded: bool
    /**
     * The view hierarchy: which container holds mMraidWebView, whether the
     * two-part web view is attached, mDefaultAdContainer's visibility, whether
     * mCloseableAdContainer is in the root view, and its close button's visibility.
     */
    var views: Hierarchy
    /** mCloseableAdContainer's layout parameters */
    var layout: CloseableLayout
    var closePosition: ClosePosition
    /**
     * The orientation fields: mWeakActivity.get(), mOriginalActivityOrientation,
     * mAllowOrientationChange and mForceOrientation.
     */
    var orientation: OrientationLock
    /** mIsPaused */
    var isPaused: bool
    /** the calls made so far to the listeners and bridges */
    var events: seq<Event>

    /** The controller as a value. */
    function Snapshot(): Ctrl
      reads this
    {
      Ctrl(placement, viewState, hasWebView, primaryLoaded, twoPartLoaded, views, layout, closePosition,
           orientation, isPaused, hasMraidListener, hasCloseListener, metrics, events)
    }

    /** A change to the orientation fields alone changes only the orientation of the snapshot. */
    twostate lemma OrientationFrame()
      requires unchanged(`viewState, `hasWebView, `primaryLoaded, `twoPartLoaded, `views, `layout, `closePosition, `isPaused, `events)
      ensures Snapshot() == old(Snapshot()).(orientation := orientation)
    {
    }

    /** A change to the view state and the event log alone changes only those parts of the snapshot. */
    twostate lemma StateAndEventsFrame()
      requires unchanged(`hasWebView, `primaryLoaded, `twoPartLoaded, `views, `layout, `closePosition, `orientation, `isPaused)
      ensures Snapshot() == old(Snapshot()).(state := viewState, events := events)
    {
    }

    /** A change to the orientation fields and the hierarchy alone changes only those parts of the snapshot. */
    twostate lemma OrientationAndViewsFrame()
      requires unchanged(`viewState, `hasWebView, `primaryLoaded, `twoPartLoaded, `layout, `closePosition, `isPaused, `events)
      ensures Snapshot() == old(Snapshot()).(orientation := orientation, views := views)
    {
    }

    /** The controller invariant, and the barrier invariant of the pending metrics request. */
    ghost predicate Valid()
      reads this, waiter, waiter.last
    {
      Inv(Snapshot()) && (waiter.last != null ==> Barrier.Inv(waiter.last.State()))
    }

    /** The controller once its web view has been filled: LOADING, in the visible default container. */
    constructor (placement: PlacementType, metrics: ScreenMetrics, env: Env, activity: Option<Activity>,
                 hasMraidListener: bool, hasCloseListener: bool, closeVisible: bool)
      ensures Snapshot() == Initial(placement, metrics, activity, hasMraidListener, hasCloseListener, closeVisible)
      ensures fresh(waiter) && waiter.last == null
      ensures Valid()
    {
      this.placement := placement;
      this.metrics := metrics;
      this.env := env;
      this.hasMraidListener := hasMraidListener;
      this.hasCloseListener := hasCloseListener;
      waiter := new ScreenMetricsWaiter();
      viewState := Loading;
      hasWebView := true;
      primaryLoaded, twoPartLoaded := false, false;
      views := Hierarchy(DefaultContainer, false, true, false, closeVisible);
      layout, closePosition := MatchParent, TopRight;
      orientation := OrientationLock(activity, None, true, NoForce);
      isPaused := true;
      events := [];
    }

    /**
     * updateScreenMetricsAsync: the pending request is cancelled, so its
     * continuation never runs; with a current web view a new request over two
     * views (the default container and that web view) is started.
     */
    method UpdateScreenMetricsAsync()
      requires waiter.last != null ==> Barrier.Inv(waiter.last.State())
      modifies waiter, waiter.last
      ensures old(waiter.last) != null ==> old(waiter.last).State() == Barrier.Cancel(old(waiter.last.State()))
      ensures HasCurrentWebView(Snapshot()) ==>
                waiter.last != null && fresh(waiter.last) && waiter.last.State() == Barrier.Start(Barrier.Created(2))
      ensures !HasCurrentWebView(Snapshot()) ==> waiter.last == null
      ensures waiter.last != null ==> Barrier.Inv(waiter.last.State())
    {
      waiter.CancelLastRequest();
      if !(views.twoPartAttached || hasWebView) {
        return;
      }
      var request := waiter.WaitFor(2);
      request.Start();
    }

    /** The first half of setViewState: commit the state and tell the bridges and the listener. */
    method CommitViewState(next: ViewState)
      modifies this`viewState, this`events
      ensures Snapshot() == ControllerSpec.SetViewState(old(Snapshot()), next)
    {
      ghost var before := Snapshot();
      var previous := viewState;
      viewState := next;
      var notified := [Notified(PrimaryBridge, ViewStateNotice(next))];
      if twoPartLoaded {
        notified := notified + [Notified(TwoPartBridge, ViewStateNotice(next))];
      }
      if hasMraidListener {
        notified := notified + ListenerEvents(previous, next);
      }
      assert notified == StateEvents(before, next);
      events := events + notified;
      StateAndEventsFrame();
    }

    /** setViewState: commit and report the state, then refresh the metrics. */
    method SetViewState(next: ViewState)
      requires waiter.last != null ==> Barrier.Inv(waiter.last.State())
      modifies this, waiter, waiter.last
      ensures Snapshot() == ControllerSpec.SetViewState(old(Snapshot()), next)
      ensures old(waiter.last) != null ==> old(waiter.last).State() == Barrier.Cancel(old(waiter.last.State()))
      ensures waiter.last != null ==> fresh(waiter.last) && Barrier.Inv(waiter.last.State())
    {
      CommitViewState(next);
      UpdateScreenMetricsAsync();
    }

    /** lockOrientation */
    method LockOrientation(screenOrientation: int) returns (outcome: Outcome<OrientationError>)
      modifies this`orientation
      ensures var r := Orientation.LockOrientation(old(orientation), screenOrientation);
              (r.Success? ==> outcome == Pass && orientation == r.value) &&
              (r.Failure? ==> outcome == Fail(r.error) && orientation == old(orientation))
      ensures Snapshot() == old(Snapshot()).(orientation := orientation)
    {
      var activity := orientation.activity;
      if activity.None? || !ShouldAllowForceOrientation(activity, orientation.forceOrientation) {
        return Fail(UnsupportedLock(orientation.forceOrientation));
      }
      if orientation.original.None? {
        orientation := orientation.(original := Some(activity.value.requestedOrientation));
      }
      orientation := orientation.(activity := Some(activity.value.(requestedOrientation := screenOrientation)));
      OrientationFrame();
      return Pass;
    }

    /** unApplyOrientation */
    method UnApplyOrientation()
      modifies this`orientation
      ensures orientation == Orientation.UnApplyOrientation(old(orientation))
      ensures Snapshot() == old(Snapshot()).(orientation := orientation)
    {
      if orientation.activity.Some? && orientation.original.Some? {
        orientation := orientation.(activity := Some(orientation.activity.value.(requestedOrientation := orientation.original.value)));
      }
      orientation := orientation.(original := None);
      OrientationFrame();
    }

    /** applyOrientation */
    method ApplyOrientation() returns (outcome: Outcome<OrientationError>)
      modifies this`orientation
      ensures var r := Orientation.ApplyOrientation(old(orientation));
              (r.Success? ==> outcome == Pass && orientation == r.value) &&
              (r.Failure? ==> outcome == Fail(r.error) && orientation == old(orientation))
      ensures Snapshot() == old(Snapshot()).(orientation := orientation)
    {
      if orientation.forceOrientation == NoForce {
        if orientation.allowOrientationChange {
          UnApplyOrientation();
          outcome := Pass;
        } else if orientation.activity.None? {
          outcome := Fail(NoActivityForNone);
        } else {
          outcome := LockOrientation(orientation.activity.value.currentOrientation);
        }
      } else {
        outcome := LockOrientation(ActivityInfoOrientation(orientation.forceOrientation));
      }
    }

    /** handleSetOrientationProperties */
    method HandleSetOrientationProperties(allow: bool, force: MraidOrientation) returns (outcome: Outcome<CommandError>)
      requires Valid()
      modifies this
      ensures Snapshot() == SetProperties(old(Snapshot()), allow, force).next
      ensures outcome == SetProperties(old(Snapshot()), allow, force).outcome
      ensures Valid()
    {
      ghost var before := Snapshot();
      var stored := StoreOrientationProperties(allow, force, viewState == Expanded || (placement == Interstitial && !isPaused));
      outcome := match stored case Pass => Pass case Fail(e) => Fail(OrientationFailed(e));
      InvFrame(before, Snapshot());
    }

    /** The orientation half of handleSetOrientationProperties: validate, store, and apply when `applyNow` holds. */
    method StoreOrientationProperties(allow: bool, force: MraidOrientation, applyNow: bool)
      returns (outcome: Outcome<OrientationError>)
      modifies this`orientation
      ensures orientation == SetOrientationProperties(old(orientation), allow, force, applyNow).0
      ensures outcome == SetOrientationProperties(old(orientation), allow, force, applyNow).1
      ensures Snapshot() == old(Snapshot()).(orientation := orientation)
    {
      if !ShouldAllowForceOrientation(orientation.activity, force) {
        return Fail(UnableToForce(force));
      }
      orientation := orientation.(allowOrientationChange := allow, forceOrientation := force);
      if !applyNow {
        OrientationFrame();
        return Pass;
      }
      outcome := ApplyOrientation();
      OrientationFrame();
    }

    /** handleCustomClose */
    method HandleCustomClose(useCustomClose: bool)
      modifies this
      ensures Snapshot() == CustomClose(old(Snapshot()), useCustomClose)
      ensures old(Valid()) ==> Valid()
    {
      if useCustomClose == !views.closeVisible {
        return;
      }
      views := views.(closeVisible := !useCustomClose);
      if hasCloseListener {
        events := events + [CustomCloseChanged(useCustomClose)];
      }
    }

    /** handleResize */
    method HandleResize(p: ResizeProperties) returns (outcome: Outcome<CommandError>)
      requires Valid()
      modifies this, waiter, waiter.last
      ensures Snapshot() == Resize(old(Snapshot()), p, env).next
      ensures outcome == Resize(old(Snapshot()), p, env).outcome
      ensures Valid()
    {
      if !hasWebView {
        return Fail(WebViewDestroyed);
      }
      if viewState == Loading || viewState == Hidden {
        return Pass;
      }
      if viewState == Expanded {
        return Fail(ResizeFromExpanded);
      }
      if placement == Interstitial {
        return Fail(ResizeInterstitial);
      }
      var checked := CheckResize(metrics, p, env);
      if checked.Failure? {
        return Fail(ResizeRejected(checked.error, RejectionMessage(p, checked.error, metrics)));
      }
      ghost var before := Snapshot();
      PlaceResized(p, checked.value);
      SetViewState(Resized);
      ControllerProps.ResizeKeepsInv(before, p, env);
      return Pass;
    }

    /** The view moves of a validated resize. */
    method PlaceResized(p: ResizeProperties, rect: Rect)
      modifies this
      ensures Snapshot() == ResizePlaced(old(Snapshot()), p, rect)
    {
      if viewState == Default {
        views := views.(primaryIn := CloseableContainer, defaultVisible := false, closeableInRoot := true);
      }
      views := views.(closeVisible := false);
      closePosition := p.closePosition;
      layout := Sized(rect);
    }

    /** handleExpand */
    method HandleExpand(url: Option<string>, useCustomClose: bool) returns (outcome: Outcome<CommandError>)
      requires Valid()
      modifies this, waiter, waiter.last
      ensures Snapshot() == Expand(old(Snapshot()), url, useCustomClose).next
      ensures outcome == Expand(old(Snapshot()), url, useCustomClose).outcome
      ensures Valid()
    {
      if !hasWebView {
        return Fail(WebViewDestroyed);
      }
      if placement == Interstitial {
        return Pass;
      }
      if viewState != Default && viewState != Resized {
        return Pass;
      }
      ghost var before := Snapshot();
      var orientation := ApplyOrientation();
      if orientation.Fail? {
        return Fail(OrientationFailed(orientation.error));
      }
      CompleteExpand(before, url, useCustomClose);
      return Pass;
    }

    /** handleExpand once the orientation lock has been applied to `before`. */
    method CompleteExpand(ghost before: Ctrl, url: Option<string>, useCustomClose: bool)
      requires Inv(before) && Expandable(before) && Orientation.ApplyOrientation(before.orientation).Success?
      requires Snapshot() == before.(orientation := Orientation.ApplyOrientation(before.orientation).value)
      requires waiter.last != null ==> Barrier.Inv(waiter.last.State())
      modifies this, waiter, waiter.last
      ensures Snapshot() == Expand(before, url, useCustomClose).next
      ensures Valid()
    {
      AttachForExpand(url);
      assert Snapshot() == Attached(before, Orientation.ApplyOrientation(before.orientation).value, url);
      HandleCustomClose(useCustomClose);
      SetViewState(Expanded);
      ControllerProps.ExpandKeepsInv(before, url, useCustomClose);
    }

    /** The view moves of handleExpand: attach the two-part web view when there is a URL, and fill the closeable container. */
    method AttachForExpand(url: Option<string>)
      modifies this
      ensures Snapshot() == Attached(old(Snapshot()), old(Snapshot()).orientation, url)
    {
      var isTwoPart := url.Some?;
      if isTwoPart {
        twoPartLoaded := false;
        events := events + [Notified(TwoPartBridge, ContentUrl(url.value))];
      }
      if viewState == Default {
        if isTwoPart {
          views := views.(twoPartAttached := true);
        } else {
          views := views.(primaryIn := CloseableContainer, defaultVisible := false);
        }
        views := views.(closeableInRoot := true);
      } else if isTwoPart {
        views := views.(primaryIn := DefaultContainer, defaultVisible := false, twoPartAttached := true);
      }
      layout := MatchParent;
    }

    /** handleClose, with the default container shown again whenever the ad returns to DEFAULT. */
    method HandleClose()
      requires Valid()
      modifies this, waiter, waiter.last
      ensures Snapshot() == Close(old(Snapshot()))
      ensures Valid()
    {
      if !hasWebView {
        return;
      }
      if viewState == Loading || viewState == Hidden {
        return;
      }
      ghost var before := Snapshot();
      PrepareClose();
      SetViewState(ClosedState(viewState));
      ControllerProps.CloseKeepsInv(before);
    }

    /** The part of handleClose before the state is committed: release the lock, rearrange the views. */
    method PrepareClose()
      modifies this
      ensures Snapshot() == Closing(old(Snapshot()))
    {
      if viewState == Expanded || placement == Interstitial {
        UnApplyOrientation();
      }
      assert orientation == ClosedOrientation(old(Snapshot()));
      if viewState == Resized || viewState == Expanded {
        if views.twoPartAttached {
          views := views.(twoPartAttached := false);
        } else {
          views := views.(primaryIn := DefaultContainer);
        }
        views := views.(defaultVisible := true, closeableInRoot := false);
        assert views == ClosedViews(old(views));
      } else {
        views := views.(defaultVisible := false);
      }
      OrientationAndViewsFrame();
    }

    /** handlePageLoad, then onLoaded, the first time the primary bridge reports its page. */
    method OnPageLoaded()
      requires Valid()
      modifies this, waiter, waiter.last
      ensures Snapshot() == PageLoaded(old(Snapshot()))
      ensures Valid()
    {
      if primaryLoaded {
        return;
      }
      ghost var before := Snapshot();
      primaryLoaded := true;
      events := events + PageNotices;
      SetViewState(Default);
      events := events + [Notified(PrimaryBridge, Ready)];
      if hasMraidListener {
        events := events + [Listener(OnLoaded)];
      }
      ControllerProps.PageLoadedKeepsInv(before);
    }

    /** handleTwoPartPageLoad: the two-part bridge counts as loaded and new metrics are requested. */
    method OnTwoPartPageLoaded()
      requires Valid()
      modifies this, waiter, waiter.last
      ensures Snapshot() == TwoPartPageLoaded(old(Snapshot()))
      ensures old(waiter.last) != null ==> old(waiter.last).State() == Barrier.Cancel(old(waiter.last.State()))
      ensures HasCurrentWebView(Snapshot()) ==>
                waiter.last != null && fresh(waiter.last) && waiter.last.State() == Barrier.Start(Barrier.Created(2))
      ensures !HasCurrentWebView(Snapshot()) ==> waiter.last == null
      ensures Valid()
    {
      twoPartLoaded := true;
      UpdateScreenMetricsAsync();
    }

    /** onShow */
    method OnShow(shown: Activity)
      requires Valid()
      modifies this
      ensures Snapshot() == Show(old(Snapshot()), shown)
      ensures Valid()
    {
      orientation := orientation.(activity := Some(shown));
      if hasCloseListener {
        events := events + [CustomCloseChanged(!views.closeVisible)];
      }
      var _ := ApplyOrientation();
    }

    /** pause */
    method Pause()
      requires Valid()
      modifies this
      ensures Snapshot() == old(Snapshot()).(isPaused := true)
      ensures Valid()
    {
      isPaused := true;
    }

    /** resume */
    method Resume()
      requires Valid()
      modifies this
      ensures Snapshot() == old(Snapshot()).(isPaused := false)
      ensures Valid()
    {
      isPaused := false;
    }

    /** destroy: the pending metrics request is cancelled as well. */
    method Destroy()
      requires Valid()
      modifies this, waiter, waiter.last
      ensures Snapshot() == ControllerSpec.Destroy(old(Snapshot()))
      ensures old(waiter.last) != null ==> old(waiter.last).State() == Barrier.Cancel(old(waiter.last.State()))
      ensures waiter.last == null
      ensures Valid()
    {
      waiter.CancelLastRequest();
      isPaused := true;
      views := views.(closeableInRoot := false, twoPartAttached := false);
      hasWebView := false;
      UnApplyOrientation();
    }
  }
}
