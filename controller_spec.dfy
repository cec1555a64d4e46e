/**
 * The MRAID controller as a value: the view state, the abstract view
 * hierarchy, the orientation fields and the log of outbound calls, with one
 * function per command saying what the command leaves behind.
 */
module ControllerSpec {
  import opened Wrappers
  import opened ViewStates
  import opened Geometry
  import opened Orientation

  /** The two containers the primary web view can sit in. */
  datatype Container = DefaultContainer | CloseableContainer

  /**
   * The view hierarchy, abstracted: where the primary web view is, whether a
   * two-part web view is attached, whether the default container is visible,
   * whether the closeable container is in the root view, and whether the
   * closeable container draws its close button.
   */
  datatype Hierarchy = Hierarchy(
    primaryIn: Container,
    twoPartAttached: bool,
    defaultVisible: bool,
    closeableInRoot: bool,
    closeVisible: bool)

  /** The layout parameters of the closeable container: full size, or a rectangle of the root view. */
  datatype CloseableLayout = MatchParent | Sized(rect: Rect)

  datatype Bridge = PrimaryBridge | TwoPartBridge

  /** What the controller pushes into a bridge's script context. */
  datatype Notice =
    | Supports
    | PlacementTypeNotice
    | Viewability(visible: bool)
    | OwnViewability            // the bridge's own isViewable(), whose code is not part of this model
    | ScreenMetricsNotice
    | ViewStateNotice(state: ViewState)
    | Ready
    | ContentUrl(url: string)

  /** An outbound call: a MraidListener callback, the custom-close listener, or a bridge notification. */
  datatype Event =
    | Listener(event: ListenerEvent)
    | CustomCloseChanged(useCustomClose: bool)
    | Notified(bridge: Bridge, notice: Notice)

  /** The errors (MraidCommandException) a command reports to the creative. */
  datatype CommandError =
    | WebViewDestroyed
    | ResizeFromExpanded
    | ResizeInterstitial
    | ResizeFromTwoPart
    | ResizeRejected(failure: ResizeFailure, message: ResizeMessage)
    | OrientationFailed(error: OrientationError)

  datatype Ctrl = Ctrl(
    placement: PlacementType,
    state: ViewState,
    hasWebView: bool,          // mMraidWebView != null
    primaryLoaded: bool,       // the primary bridge has reported its page load
    twoPartLoaded: bool,       // mTwoPartBridge.isLoaded()
    views: Hierarchy,
    layout: CloseableLayout,
    closePosition: ClosePosition,
    orientation: OrientationLock,
    isPaused: bool,
    hasMraidListener: bool,
    hasCloseListener: bool,
    metrics: ScreenMetrics,
    events: seq<Event>)

  /** A command's result: the state it leaves and whether it reported an error. */
  datatype Reply = Reply(next: Ctrl, outcome: Outcome<CommandError>)

  /** A freshly constructed controller whose primary web view has been filled but has not loaded yet. */
  function Initial(placement: PlacementType, metrics: ScreenMetrics, activity: Option<Activity>,
                   hasMraidListener: bool, hasCloseListener: bool, closeVisible: bool): Ctrl
  {
    Ctrl(placement, Loading, true, false, false,
         Hierarchy(DefaultContainer, false, true, false, closeVisible),
         MatchParent, TopRight, OrientationLock(activity, None, true, NoForce),
         true, hasMraidListener, hasCloseListener, metrics, [])
  }

  /** getCurrentWebView() != null: the two-part web view when attached, otherwise the primary one. */
  predicate HasCurrentWebView(c: Ctrl) {
    c.views.twoPartAttached || c.hasWebView
  }

  /**
   * The hierarchy each view state goes with: DEFAULT, LOADING and HIDDEN keep
   * the primary web view in the default container; RESIZED puts it in the
   * closeable container in the root view; EXPANDED shows either it or the
   * two-part web view there at full size.
   */
  predicate HierarchyMatches(state: ViewState, v: Hierarchy, layout: CloseableLayout) {
    match state
    case Loading | Default =>
      v.primaryIn == DefaultContainer && !v.twoPartAttached && !v.closeableInRoot && v.defaultVisible
    case Hidden =>
      v.primaryIn == DefaultContainer && !v.twoPartAttached && !v.closeableInRoot && !v.defaultVisible
    case Resized =>
      v.primaryIn == CloseableContainer && !v.twoPartAttached && v.closeableInRoot && !v.defaultVisible && layout.Sized?
    case Expanded =>
      v.closeableInRoot && layout == MatchParent &&
      (v.twoPartAttached ==> v.primaryIn == DefaultContainer) &&
      (!v.twoPartAttached ==> v.primaryIn == CloseableContainer && !v.defaultVisible)
  }

  /** Inv depends only on the placement, the state, the web views, the hierarchy and the layout. */
  lemma InvFrame(c: Ctrl, d: Ctrl)
    requires c.placement == d.placement && c.state == d.state && c.hasWebView == d.hasWebView
    requires c.primaryLoaded == d.primaryLoaded && c.views == d.views && c.layout == d.layout
    ensures Inv(c) == Inv(d)
  {
  }

  /** The controller invariant. */
  ghost predicate Inv(c: Ctrl) {
    (!c.primaryLoaded ==> c.state == Loading) &&
    (c.placement == Interstitial ==> c.state != Resized && c.state != Expanded) &&
    (c.views.twoPartAttached ==> c.hasWebView && c.state == Expanded) &&
    (c.hasWebView ==> HierarchyMatches(c.state, c.views, c.layout))
  }

  /** CallbackList as entries of the event log. */
  function ListenerEvents(previous: ViewState, current: ViewState): (r: seq<Event>)
    ensures |r| <= 1
    ensures |r| == 1 <==> ListenerCallback(previous, current).Some?
    ensures |r| == 1 ==> r[0] == Listener(ListenerCallback(previous, current).value)
  {
    var callbacks := CallbackList(previous, current);
    if callbacks == [] then [] else [Listener(callbacks[0])]
  }

  /** The calls setViewState makes: both bridges (the two-part one only once loaded), then the listener. */
  function StateEvents(c: Ctrl, next: ViewState): seq<Event> {
    [Notified(PrimaryBridge, ViewStateNotice(next))]
    + (if c.twoPartLoaded then [Notified(TwoPartBridge, ViewStateNotice(next))] else [])
    + (if c.hasMraidListener then ListenerEvents(c.state, next) else [])
  }

  /** setViewState: commit the state and report it. */
  function SetViewState(c: Ctrl, next: ViewState): (r: Ctrl)
    ensures r.state == next
    ensures r == c.(state := next, events := r.events)
    ensures |c.events| < |r.events|
    ensures r.events[..|c.events|] == c.events
    // the primary bridge always hears of the new state, and the listener hears at most one callback
    ensures r.events[|c.events|] == Notified(PrimaryBridge, ViewStateNotice(next))
    ensures |r.events| - |c.events| <= 3
    ensures c.hasMraidListener && ListenerCallback(c.state, next).Some? ==>
              r.events[|r.events| - 1] == Listener(ListenerCallback(c.state, next).value)
    // the two-part bridge hears of it exactly when it has loaded; without a listener no callback is logged
    ensures (Notified(TwoPartBridge, ViewStateNotice(next)) in r.events[|c.events|..]) <==> c.twoPartLoaded
    ensures !c.hasMraidListener ==> forall e :: e in r.events[|c.events|..] ==> !e.Listener?
  {
    c.(state := next, events := c.events + StateEvents(c, next))
  }

  /** isUsingCustomClose(): the close button is hidden. */
  predicate UsingCustomClose(c: Ctrl) {
    !c.views.closeVisible
  }

  /**
   * handleCustomClose: nothing when the value is the current one; otherwise
   * flip the close button and tell the custom-close listener once.
   */
  function CustomClose(c: Ctrl, useCustomClose: bool): (r: Ctrl)
    ensures r.views.closeVisible == !useCustomClose
    ensures useCustomClose == UsingCustomClose(c) ==> r == c
    ensures useCustomClose != UsingCustomClose(c) ==>
              r == c.(views := c.views.(closeVisible := !useCustomClose),
                      events := c.events + if c.hasCloseListener then [CustomCloseChanged(useCustomClose)] else [])
  {
    if useCustomClose == UsingCustomClose(c) then c
    else
      var views := c.views.(closeVisible := !useCustomClose);
      var events := if c.hasCloseListener then c.events + [CustomCloseChanged(useCustomClose)] else c.events;
      c.(views := views, events := events)
  }

  /** Setting the same custom-close value twice is the same as setting it once. */
  lemma CustomCloseIdempotent(c: Ctrl, useCustomClose: bool)
    ensures CustomClose(CustomClose(c, useCustomClose), useCustomClose) == CustomClose(c, useCustomClose)
  {
  }

  /** The states in which handleResize goes on to validate the geometry. */
  predicate Resizable(c: Ctrl) {
    c.hasWebView && (c.state == Default || c.state == Resized) && c.placement == Inline
  }

  /**
   * handleResize: refuse or ignore the command according to the state, then
   * validate the geometry, and only then move the primary web view into the
   * closeable container at the validated rectangle and commit RESIZED.
   */
  function Resize(c: Ctrl, p: ResizeProperties, env: Env): (r: Reply)
    ensures !c.hasWebView ==> r == Reply(c, Fail(WebViewDestroyed))
    ensures c.hasWebView && (c.state == Loading || c.state == Hidden) ==> r == Reply(c, Pass)
    ensures c.hasWebView && c.state == Expanded ==> r == Reply(c, Fail(ResizeFromExpanded))
    ensures c.hasWebView && (c.state == Default || c.state == Resized) && c.placement == Interstitial ==>
              r == Reply(c, Fail(ResizeInterstitial))
    // every refusal leaves the controller exactly as it was
    ensures r.outcome.Fail? ==> r.next == c
    ensures Resizable(c) ==>
              (r.outcome.Fail? <==> CheckResize(c.metrics, p, env).Failure?)
    ensures Resizable(c) && CheckResize(c.metrics, p, env).Failure? ==>
              r.outcome == Fail(ResizeRejected(CheckResize(c.metrics, p, env).error,
                                               RejectionMessage(p, CheckResize(c.metrics, p, env).error, c.metrics)))
    // a commit: the state is RESIZED, the web view sits at the validated rectangle, the close button is hidden
    ensures Resizable(c) && CheckResize(c.metrics, p, env).Success? ==>
              r.next.state == Resized &&
              r.next.layout == Sized(CheckResize(c.metrics, p, env).value) &&
              r.next.closePosition == p.closePosition &&
              r.next.orientation == c.orientation &&
              (c.state == Default ==>
                 r.next.views == c.views.(primaryIn := CloseableContainer, defaultVisible := false,
                                          closeableInRoot := true, closeVisible := false)) &&
              (c.state == Resized ==> r.next.views == c.views.(closeVisible := false))
  {
    if !c.hasWebView then Reply(c, Fail(WebViewDestroyed))
    else if c.state == Loading || c.state == Hidden then Reply(c, Pass)
    else if c.state == Expanded then Reply(c, Fail(ResizeFromExpanded))
    else if c.placement == Interstitial then Reply(c, Fail(ResizeInterstitial))
    else match CheckResize(c.metrics, p, env)
      case Failure(f) => Reply(c, Fail(ResizeRejected(f, RejectionMessage(p, f, c.metrics))))
      case Success(rect) => Reply(SetViewState(ResizePlaced(c, p, rect), Resized), Pass)
  }

  /**
   * The controller once a validated resize is in place, before the state is
   * committed: from DEFAULT the primary web view moves into the closeable
   * container, which joins the root view; in both states the close button is
   * hidden and the container takes the rectangle.
   */
  function ResizePlaced(c: Ctrl, p: ResizeProperties, rect: Rect): Ctrl {
    var views :=
      if c.state == Default then
        c.views.(primaryIn := CloseableContainer, defaultVisible := false, closeableInRoot := true, closeVisible := false)
      else c.views.(closeVisible := false);
    c.(views := views, layout := Sized(rect), closePosition := p.closePosition)
  }

  /**
   * The hierarchy handleExpand builds: from DEFAULT the closeable container
   * joins the root view holding the two-part web view or, without one, the
   * primary web view taken out of the hidden default container; from RESIZED
   * a two-part web view replaces the primary one, which goes back to the
   * hidden default container, and otherwise nothing moves.
   */
  function ExpandedViews(v: Hierarchy, from: ViewState, isTwoPart: bool): (w: Hierarchy)
    ensures w.closeVisible == v.closeVisible
    ensures w.twoPartAttached == (isTwoPart || v.twoPartAttached)
    ensures from == Default ==> w.closeableInRoot
    ensures from != Default ==> w.closeableInRoot == v.closeableInRoot
    ensures !isTwoPart && from == Default ==> w.primaryIn == CloseableContainer && !w.defaultVisible
    ensures !isTwoPart && from != Default ==> w == v
    ensures isTwoPart && from != Default ==> w.primaryIn == DefaultContainer && !w.defaultVisible
    ensures isTwoPart && from == Default ==> w.primaryIn == v.primaryIn && w.defaultVisible == v.defaultVisible
  {
    if from == Default then
      if isTwoPart then v.(twoPartAttached := true, closeableInRoot := true)
      else v.(primaryIn := CloseableContainer, defaultVisible := false, closeableInRoot := true)
    else if isTwoPart then v.(primaryIn := DefaultContainer, defaultVisible := false, twoPartAttached := true)
    else v
  }

  /** The states in which handleExpand goes on to apply the orientation lock. */
  predicate Expandable(c: Ctrl) {
    c.hasWebView && c.placement == Inline && (c.state == Default || c.state == Resized)
  }

  /** The controller once the web view to show is in place, before the custom-close flag and the new state. */
  function Attached(c: Ctrl, orientation: OrientationLock, url: Option<string>): (r: Ctrl)
    ensures r.state == c.state && r.orientation == orientation && r.layout == MatchParent
    ensures r.views == ExpandedViews(c.views, c.state, url.Some?)
    ensures url.Some? ==> !r.twoPartLoaded
  {
    c.(orientation := orientation, views := ExpandedViews(c.views, c.state, url.Some?), layout := MatchParent,
       twoPartLoaded := if url.Some? then false else c.twoPartLoaded,
       events := c.events + if url.Some? then [Notified(TwoPartBridge, ContentUrl(url.value))] else [])
  }

  /**
   * handleExpand: ignored for interstitials and outside DEFAULT and RESIZED;
   * otherwise apply the orientation lock first, attach the two-part web view
   * when a URL is given, show the right web view full size in the closeable
   * container, apply the custom-close flag and commit EXPANDED.
   */
  function Expand(c: Ctrl, url: Option<string>, useCustomClose: bool): (r: Reply)
    ensures !c.hasWebView ==> r == Reply(c, Fail(WebViewDestroyed))
    ensures c.hasWebView && !Expandable(c) ==> r == Reply(c, Pass)
    // the orientation lock is applied before anything changes, and its failure changes nothing
    ensures Expandable(c) ==> (r.outcome.Fail? <==> ApplyOrientation(c.orientation).Failure?)
    ensures r.outcome.Fail? ==> r.next == c
    ensures Expandable(c) && ApplyOrientation(c.orientation).Failure? ==>
              r.outcome == Fail(OrientationFailed(ApplyOrientation(c.orientation).error))
    ensures Expandable(c) && ApplyOrientation(c.orientation).Success? ==>
              r.next.state == Expanded &&
              r.next.orientation == ApplyOrientation(c.orientation).value &&
              r.next.layout == MatchParent &&
              r.next.views == ExpandedViews(c.views, c.state, url.Some?).(closeVisible := !useCustomClose) &&
              (url.Some? ==> !r.next.twoPartLoaded)
  {
    if !c.hasWebView then Reply(c, Fail(WebViewDestroyed))
    else if c.placement == Interstitial then Reply(c, Pass)
    else if c.state != Default && c.state != Resized then Reply(c, Pass)
    else match ApplyOrientation(c.orientation)
      case Failure(e) => Reply(c, Fail(OrientationFailed(e)))
      case Success(orientation) =>
        Reply(SetViewState(CustomClose(Attached(c, orientation, url), useCustomClose), Expanded), Pass)
  }

  /** The hierarchy after closing a resized or expanded ad, as the source writes it. */
  function ClosedViewsAsWritten(v: Hierarchy): (w: Hierarchy)
    ensures !w.twoPartAttached && !w.closeableInRoot && w.closeVisible == v.closeVisible
    ensures v.twoPartAttached ==> w.primaryIn == v.primaryIn && w.defaultVisible == v.defaultVisible
    ensures !v.twoPartAttached ==> w.primaryIn == DefaultContainer && w.defaultVisible
  {
    if v.twoPartAttached then v.(twoPartAttached := false, closeableInRoot := false)
    else v.(primaryIn := DefaultContainer, defaultVisible := true, closeableInRoot := false)
  }

  /** The orientation lock after handleClose: released when an expanded or interstitial ad closes. */
  function ClosedOrientation(c: Ctrl): OrientationLock {
    if c.state == Expanded || c.placement == Interstitial then UnApplyOrientation(c.orientation) else c.orientation
  }

  /** handleClose as the source writes it. */
  function CloseAsWritten(c: Ctrl): (r: Ctrl)
    ensures !c.hasWebView || c.state == Loading || c.state == Hidden ==> r == c
    ensures c.hasWebView && (c.state == Resized || c.state == Expanded) ==>
              r.state == Default && r.orientation == ClosedOrientation(c) &&
              r.views == ClosedViewsAsWritten(c.views)
    ensures c.hasWebView && c.state == Default ==>
              r.state == Hidden && r.orientation == ClosedOrientation(c) &&
              r.views == c.views.(defaultVisible := false)
  {
    if !c.hasWebView || c.state == Loading || c.state == Hidden then c
    else
      var unlocked := c.(orientation := ClosedOrientation(c));
      if c.state == Resized || c.state == Expanded then
        SetViewState(unlocked.(views := ClosedViewsAsWritten(c.views)), Default)
      else
        SetViewState(unlocked.(views := c.views.(defaultVisible := false)), Hidden)
  }

  /** The hierarchy after closing a resized or expanded ad, with the default container shown in both branches. */
  function ClosedViews(v: Hierarchy): (w: Hierarchy)
    ensures !w.twoPartAttached && !w.closeableInRoot && w.closeVisible == v.closeVisible && w.defaultVisible
    ensures w.primaryIn == if v.twoPartAttached then v.primaryIn else DefaultContainer
  {
    if v.twoPartAttached then v.(twoPartAttached := false, closeableInRoot := false, defaultVisible := true)
    else v.(primaryIn := DefaultContainer, defaultVisible := true, closeableInRoot := false)
  }

  /**
   * handleClose as intended: like the source, but the default container is
   * made visible again whenever the ad returns to DEFAULT, also when a
   * two-part web view is being removed.
   */
  function Close(c: Ctrl): (r: Ctrl)
    ensures !c.hasWebView || c.state == Loading || c.state == Hidden ==> r == c
    ensures c.hasWebView && (c.state == Resized || c.state == Expanded) ==>
              r.state == Default && r.orientation == ClosedOrientation(c) && r.views == ClosedViews(c.views)
    ensures c.hasWebView && c.state == Default ==>
              r.state == Hidden && r.orientation == ClosedOrientation(c) &&
              r.views == c.views.(defaultVisible := false)
  {
    if !c.hasWebView || c.state == Loading || c.state == Hidden then c
    else SetViewState(Closing(c), ClosedState(c.state))
  }

  /** The state handleClose commits: DEFAULT from RESIZED or EXPANDED, HIDDEN from DEFAULT. */
  function ClosedState(state: ViewState): ViewState {
    if state == Resized || state == Expanded then Default else Hidden
  }

  /** The controller once Close has rearranged the views, before the state is committed. */
  function Closing(c: Ctrl): Ctrl {
    var views := if c.state == Resized || c.state == Expanded then ClosedViews(c.views) else c.views.(defaultVisible := false);
    c.(orientation := ClosedOrientation(c), views := views)
  }

  /** handlePageLoad: announce the capabilities, placement, viewability and metrics, commit DEFAULT, then ready. */
  function HandlePageLoad(c: Ctrl): (r: Ctrl)
    ensures r.state == Default && r.views == c.views && r.orientation == c.orientation
    ensures |c.events| + |PageNotices| + 1 < |r.events|
    ensures r.events[..|c.events|] == c.events
    ensures r.events[|c.events|..|c.events| + |PageNotices|] == PageNotices
    ensures r.events[|c.events| + |PageNotices|] == Notified(PrimaryBridge, ViewStateNotice(Default))
    ensures r.events[|r.events| - 1] == Notified(PrimaryBridge, Ready)
  {
    var loaded := SetViewState(c.(events := c.events + PageNotices), Default);
    loaded.(events := loaded.events + [Notified(PrimaryBridge, Ready)])
  }

  /** What handlePageLoad tells the primary bridge before it moves to DEFAULT. */
  const PageNotices: seq<Event> :=
    [Notified(PrimaryBridge, Supports), Notified(PrimaryBridge, PlacementTypeNotice),
     Notified(PrimaryBridge, OwnViewability), Notified(PrimaryBridge, ScreenMetricsNotice)]

  /** The primary bridge's page load, which the bridge reports once: handlePageLoad, then onLoaded. */
  function PageLoaded(c: Ctrl): (r: Ctrl)
    ensures c.primaryLoaded ==> r == c
    ensures !c.primaryLoaded ==> r.primaryLoaded && r.state == Default && r.views == c.views
  {
    if c.primaryLoaded then c
    else
      var loaded := HandlePageLoad(c.(primaryLoaded := true));
      if c.hasMraidListener then loaded.(events := loaded.events + [Listener(OnLoaded)]) else loaded
  }

  /** The two-part bridge's page load: the bridge now counts as loaded (its notifications wait for new metrics). */
  function TwoPartPageLoaded(c: Ctrl): (r: Ctrl)
    ensures r.twoPartLoaded
    ensures r.state == c.state && r.views == c.views && r.orientation == c.orientation && r.events == c.events
  {
    c.(twoPartLoaded := true)
  }

  /** handleSetOrientationProperties, applied now when the ad is expanded or a showing interstitial. */
  function SetProperties(c: Ctrl, allowOrientationChange: bool, force: MraidOrientation): (r: Reply)
    ensures !ShouldAllowForceOrientation(c.orientation.activity, force) ==>
              r == Reply(c, Fail(OrientationFailed(UnableToForce(force))))
    ensures r.next == c.(orientation := r.next.orientation)
    // accepted properties are stored, and applied at once only when expanded or a showing interstitial
    ensures ShouldAllowForceOrientation(c.orientation.activity, force) ==>
              var stored := c.orientation.(allowOrientationChange := allowOrientationChange, forceOrientation := force);
              if c.state == Expanded || (c.placement == Interstitial && !c.isPaused) then
                match ApplyOrientation(stored)
                case Success(applied) => r == Reply(c.(orientation := applied), Pass)
                case Failure(e) => r == Reply(c.(orientation := stored), Fail(OrientationFailed(e)))
              else r == Reply(c.(orientation := stored), Pass)
  {
    var applyNow := c.state == Expanded || (c.placement == Interstitial && !c.isPaused);
    var (orientation, outcome) := SetOrientationProperties(c.orientation, allowOrientationChange, force, applyNow);
    Reply(c.(orientation := orientation),
          match outcome case Pass => Pass case Fail(e) => Fail(OrientationFailed(e)))
  }

  /** onShow: the new activity, the current custom-close value to its listener, and a best-effort orientation lock. */
  function Show(c: Ctrl, activity: Activity): (r: Ctrl)
    ensures r.orientation.activity.Some?
    ensures r == c.(orientation := r.orientation, events := r.events)
    // the custom-close listener hears the current value
    ensures r.events == c.events + if c.hasCloseListener then [CustomCloseChanged(UsingCustomClose(c))] else []
    // the lock is applied to the new activity when it can be, and a failure is ignored
    ensures var shown := c.orientation.(activity := Some(activity));
            r.orientation == if ApplyOrientation(shown).Success? then ApplyOrientation(shown).value else shown
  {
    var withActivity := c.(orientation := c.orientation.(activity := Some(activity)),
                           events := c.events + if c.hasCloseListener then [CustomCloseChanged(UsingCustomClose(c))] else []);
    match ApplyOrientation(withActivity.orientation)
    case Success(o) => withActivity.(orientation := o)
    case Failure(_) => withActivity
  }

  /** destroy: the closeable container leaves the root view, both web views are detached, the lock is released. */
  function Destroy(c: Ctrl): (r: Ctrl)
    ensures !r.hasWebView && !r.views.twoPartAttached && !r.views.closeableInRoot && r.isPaused
    ensures r.orientation.original.None?
    // the activity gets back the orientation it had before the ad locked it
    ensures r.orientation == UnApplyOrientation(c.orientation)
    ensures r.state == c.state && r.placement == c.placement && r.events == c.events
  {
    c.(views := c.views.(closeableInRoot := false, twoPartAttached := false), hasWebView := false,
       isPaused := true, orientation := UnApplyOrientation(c.orientation))
  }

  /** Everything that can happen to the controller: the creative's commands and the host's lifecycle. */
  datatype Command =
    | PageLoadedCmd
    | PageFailedToLoadCmd
    | VisibilityChangedCmd(visible: bool)
    | ResizeCmd(properties: ResizeProperties)
    | ExpandCmd(url: Option<string>, useCustomClose: bool)
    | CloseCmd
    | UseCustomCloseCmd(useCustomClose: bool)
    | SetOrientationPropertiesCmd(allowOrientationChange: bool, force: MraidOrientation)
    | ShowCmd(activity: Activity)
    | ActivityReleasedCmd
    | PauseCmd
    | ResumeCmd
    | DestroyCmd

  /**
   * A command arriving through one of the two bridges. Both bridges share the
   * handlers; the two-part bridge refuses resize, ignores expand and a failed
   * load, reports its own page load, and its visibility reaches both bridges,
   * while the primary bridge's visibility counts only with no two-part view attached.
   */
  function Dispatch(from: Bridge, c: Ctrl, cmd: Command, env: Env): (r: Reply)
    ensures from == TwoPartBridge && cmd.ResizeCmd? ==> r == Reply(c, Fail(ResizeFromTwoPart))
    ensures from == TwoPartBridge && (cmd.ExpandCmd? || cmd.PageFailedToLoadCmd?) ==> r == Reply(c, Pass)
    ensures from == PrimaryBridge && cmd.VisibilityChangedCmd? && c.views.twoPartAttached ==> r == Reply(c, Pass)
  {
    match cmd
    case PageLoadedCmd =>
      Reply(if from == PrimaryBridge then PageLoaded(c) else TwoPartPageLoaded(c), Pass)
    case PageFailedToLoadCmd =>
      Reply(if from == PrimaryBridge && c.hasMraidListener then c.(events := c.events + [Listener(OnFailedToLoad)]) else c, Pass)
    case VisibilityChangedCmd(visible) =>
      var events :=
        if from == TwoPartBridge then [Notified(PrimaryBridge, Viewability(visible)), Notified(TwoPartBridge, Viewability(visible))]
        else if !c.views.twoPartAttached then [Notified(PrimaryBridge, Viewability(visible))]
        else [];
      Reply(c.(events := c.events + events), Pass)
    case ResizeCmd(p) => if from == TwoPartBridge then Reply(c, Fail(ResizeFromTwoPart)) else Resize(c, p, env)
    case ExpandCmd(url, useCustomClose) => if from == TwoPartBridge then Reply(c, Pass) else Expand(c, url, useCustomClose)
    case CloseCmd => Reply(Close(c), Pass)
    case UseCustomCloseCmd(useCustomClose) => Reply(CustomClose(c, useCustomClose), Pass)
    case SetOrientationPropertiesCmd(allow, force) => SetProperties(c, allow, force)
    case ShowCmd(activity) => Reply(Show(c, activity), Pass)
    case ActivityReleasedCmd => Reply(c.(orientation := c.orientation.(activity := None)), Pass)
    case PauseCmd => Reply(c.(isPaused := true), Pass)
    case ResumeCmd => Reply(c.(isPaused := false), Pass)
    case DestroyCmd => Reply(Destroy(c), Pass)
  }
}
