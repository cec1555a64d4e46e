/**
 * What the controller promises across commands: the view hierarchy always
 * matches the view state, every state change is an edge of the MRAID state
 * machine, and a command fires at most one MraidListener callback.
 */
module ControllerProps {
  import opened Wrappers
  import opened ViewStates
  import opened Geometry
  import opened Orientation
  import opened ControllerSpec

  /** A newly built controller satisfies the invariant. */
  lemma InitialInv(placement: PlacementType, metrics: ScreenMetrics, activity: Option<Activity>,
                   hasMraidListener: bool, hasCloseListener: bool, closeVisible: bool)
    ensures Inv(Initial(placement, metrics, activity, hasMraidListener, hasCloseListener, closeVisible))
  {
  }

  lemma ResizeKeepsInv(c: Ctrl, p: ResizeProperties, env: Env)
    requires Inv(c)
    ensures Inv(Resize(c, p, env).next)
  {
  }

  lemma ExpandKeepsInv(c: Ctrl, url: Option<string>, useCustomClose: bool)
    requires Inv(c)
    ensures Inv(Expand(c, url, useCustomClose).next)
  {
  }

  lemma CloseKeepsInv(c: Ctrl)
    requires Inv(c)
    ensures Inv(Close(c))
  {
  }

  lemma PageLoadedKeepsInv(c: Ctrl)
    requires Inv(c)
    ensures Inv(PageLoaded(c))
  {
  }

  /** Every command, from either bridge or from the host, keeps the invariant. */
  lemma DispatchKeepsInv(from: Bridge, c: Ctrl, cmd: Command, env: Env)
    requires Inv(c)
    ensures Inv(Dispatch(from, c, cmd, env).next)
  {
    match cmd
    case ResizeCmd(p) => if from == PrimaryBridge { ResizeKeepsInv(c, p, env); }
    case ExpandCmd(url, useCustomClose) => if from == PrimaryBridge { ExpandKeepsInv(c, url, useCustomClose); }
    case CloseCmd => CloseKeepsInv(c);
    case PageLoadedCmd => PageLoadedKeepsInv(c);
    case _ =>
  }

  /** One arrival: a command and the bridge it came through (the primary bridge stands for the host too). */
  datatype Step = Step(from: Bridge, cmd: Command)

  /** The controller after a sequence of arrivals. */
  function Replay(c: Ctrl, steps: seq<Step>, env: Env): Ctrl
    decreases |steps|
  {
    if steps == [] then c
    else Replay(Dispatch(steps[0].from, c, steps[0].cmd, env).next, steps[1..], env)
  }

  /** The invariant holds after any sequence of arrivals from a state where it holds. */
  lemma {:induction false} ReplayKeepsInv(c: Ctrl, steps: seq<Step>, env: Env)
    requires Inv(c)
    ensures Inv(Replay(c, steps, env))
    decreases |steps|
  {
    if steps != [] {
      DispatchKeepsInv(steps[0].from, c, steps[0].cmd, env);
      ReplayKeepsInv(Dispatch(steps[0].from, c, steps[0].cmd, env).next, steps[1..], env);
    }
  }

  /** Every controller a host can reach from construction satisfies the invariant. */
  lemma ReachableInv(placement: PlacementType, metrics: ScreenMetrics, activity: Option<Activity>,
                     hasMraidListener: bool, hasCloseListener: bool, closeVisible: bool, steps: seq<Step>, env: Env)
    ensures Inv(Replay(Initial(placement, metrics, activity, hasMraidListener, hasCloseListener, closeVisible), steps, env))
  {
    InitialInv(placement, metrics, activity, hasMraidListener, hasCloseListener, closeVisible);
    ReplayKeepsInv(Initial(placement, metrics, activity, hasMraidListener, hasCloseListener, closeVisible), steps, env);
  }

  /** Accepted orientation properties on an inline ad that is not expanded are stored but not applied. */
  lemma SetPropertiesDeferredInline(c: Ctrl, allowOrientationChange: bool, force: MraidOrientation)
    requires c.placement == Inline && c.state != Expanded
    requires ShouldAllowForceOrientation(c.orientation.activity, force)
    ensures var r := SetProperties(c, allowOrientationChange, force);
            r.outcome == Pass && r.next.orientation.activity == c.orientation.activity &&
            r.next.orientation.original == c.orientation.original &&
            r.next.orientation.allowOrientationChange == allowOrientationChange &&
            r.next.orientation.forceOrientation == force
  {
  }

  /** An accepted forced orientation sent while expanded locks the activity to it at once. */
  lemma SetPropertiesLocksWhenExpanded(c: Ctrl, allowOrientationChange: bool, force: MraidOrientation)
    requires c.state == Expanded && force != NoForce
    requires ShouldAllowForceOrientation(c.orientation.activity, force)
    ensures var r := SetProperties(c, allowOrientationChange, force);
            r.outcome == Pass &&
            r.next.orientation.activity == Some(c.orientation.activity.value.(requestedOrientation := ActivityInfoOrientation(force))) &&
            r.next.orientation.forceOrientation == force
  {
    AcceptedForceAlwaysApplies(c.orientation, allowOrientationChange, force);
  }

  /** A command either leaves the view state alone or moves it along an edge of the MRAID state machine. */
  lemma DispatchLegal(from: Bridge, c: Ctrl, cmd: Command, env: Env)
    requires Inv(c)
    ensures var next := Dispatch(from, c, cmd, env).next;
            next.state == c.state || LegalTransition(c.state, next.state)
  {
    var next := Dispatch(from, c, cmd, env).next;
    match cmd
    case ResizeCmd(p) =>
      if from == PrimaryBridge && Resizable(c) && CheckResize(c.metrics, p, env).Success? {
        assert next.state == Resized;
      }
    case ExpandCmd(url, useCustomClose) =>
      if from == PrimaryBridge && Expandable(c) && ApplyOrientation(c.orientation).Success? {
        assert next.state == Expanded;
      }
    case CloseCmd =>
      if c.hasWebView && c.state != Loading && c.state != Hidden {
        assert next.state == ClosedState(c.state);
      }
    case PageLoadedCmd =>
      if from == PrimaryBridge && !c.primaryLoaded {
        assert c.state == Loading && next.state == Default;
      }
    case _ =>
  }

  /** The MraidListener callbacks recorded in an event log, in order. */
  function Callbacks(events: seq<Event>): (r: seq<ListenerEvent>)
    ensures |r| <= |events|
  {
    if events == [] then [] else CallbackOf(events[0]) + Callbacks(events[1..])
  }

  function CallbackOf(e: Event): seq<ListenerEvent> {
    if e.Listener? then [e.event] else []
  }

  lemma {:induction false} CallbacksAppend(a: seq<Event>, b: seq<Event>)
    ensures Callbacks(a + b) == Callbacks(a) + Callbacks(b)
    decreases |a|
  {
    if a == [] {
      assert a + b == b;
    } else {
      assert (a + b)[0] == a[0];
      assert (a + b)[1..] == a[1..] + b;
      CallbacksAppend(a[1..], b);
      calc {
        Callbacks(a + b);
        CallbackOf(a[0]) + Callbacks(a[1..] + b);
        CallbackOf(a[0]) + (Callbacks(a[1..]) + Callbacks(b));
        (CallbackOf(a[0]) + Callbacks(a[1..])) + Callbacks(b);
      }
    }
  }

  /** The callbacks setViewState fires: the one the state pair calls for, when a listener is set. */
  lemma StateEventsCallbacks(c: Ctrl, next: ViewState)
    ensures Callbacks(StateEvents(c, next)) == if c.hasMraidListener then CallbackList(c.state, next) else []
  {
    var twoPart := if c.twoPartLoaded then [Notified(TwoPartBridge, ViewStateNotice(next))] else [];
    var listener := if c.hasMraidListener then ListenerEvents(c.state, next) else [];
    CallbacksAppend([Notified(PrimaryBridge, ViewStateNotice(next))] + twoPart, listener);
    CallbacksAppend([Notified(PrimaryBridge, ViewStateNotice(next))], twoPart);
  }

  lemma {:induction false} NoListenerNoCallbacks(events: seq<Event>)
    requires forall i :: 0 <= i < |events| ==> !events[i].Listener?
    ensures Callbacks(events) == []
    decreases |events|
  {
    if events != [] {
      assert !events[0].Listener?;
      NoListenerNoCallbacks(events[1..]);
    }
  }

  /** handleResize fires onResize(false) when it commits and a listener is set, and nothing otherwise. */
  lemma ResizeCallbacks(c: Ctrl, p: ResizeProperties, env: Env)
    ensures var r := Resize(c, p, env).next;
            |c.events| <= |r.events| &&
            Callbacks(r.events[|c.events|..]) ==
              if Resizable(c) && CheckResize(c.metrics, p, env).Success? && c.hasMraidListener
              then [OnResize(false)] else []
  {
    var r := Resize(c, p, env).next;
    if Resizable(c) && CheckResize(c.metrics, p, env).Success? {
      var placed := ResizePlaced(c, p, CheckResize(c.metrics, p, env).value);
      assert r == SetViewState(placed, Resized);
      assert placed.events == c.events + [];
      CommitCallbacks(c, placed, [], Resized);
    } else {
      assert r == c;
      assert r.events[|c.events|..] == [];
    }
  }

  /** The callbacks logged after `log`, when the first part of what follows logs none. */
  lemma SuffixCallbacks(log: seq<Event>, silent: seq<Event>, rest: seq<Event>)
    requires Callbacks(silent) == []
    ensures (log + silent + rest)[|log|..] == silent + rest
    ensures Callbacks((log + silent + rest)[|log|..]) == Callbacks(rest)
  {
    assert (log + silent + rest)[|log|..] == silent + rest;
    CallbacksAppend(silent, rest);
  }

  /** The callbacks of a command that ends in setViewState(next) after logging only non-listener calls. */
  lemma CommitCallbacks(c: Ctrl, prepared: Ctrl, silent: seq<Event>, next: ViewState)
    requires prepared.state == c.state && prepared.hasMraidListener == c.hasMraidListener
    requires prepared.events == c.events + silent && Callbacks(silent) == []
    ensures Callbacks(SetViewState(prepared, next).events[|c.events|..]) ==
              if c.hasMraidListener then CallbackList(c.state, next) else []
  {
    var rest := StateEvents(prepared, next);
    assert SetViewState(prepared, next).events == c.events + silent + rest;
    SuffixCallbacks(c.events, silent, rest);
    StateEventsCallbacks(prepared, next);
  }

  /** handleClose fires the callback its state change calls for: onResize(true) or onClose. */
  lemma CloseCallbacks(c: Ctrl)
    ensures var r := Close(c);
            |c.events| <= |r.events| &&
            Callbacks(r.events[|c.events|..]) ==
              if !c.hasWebView || c.state == Loading || c.state == Hidden || !c.hasMraidListener then []
              else if c.state == Resized then [OnResize(true)]
              else [OnClose]
  {
    if !c.hasWebView || c.state == Loading || c.state == Hidden {
      assert Close(c).events[|c.events|..] == [];
    } else {
      assert Closing(c).events == c.events + [];
      CommitCallbacks(c, Closing(c), [], ClosedState(c.state));
      assert CallbackList(c.state, ClosedState(c.state)) == if c.state == Resized then [OnResize(true)] else [OnClose];
    }
  }

  /** Attaching the web view and applying the custom-close flag only log non-listener calls. */
  lemma AttachedAndCustomCloseSilent(c: Ctrl, orientation: OrientationLock, url: Option<string>, useCustomClose: bool)
    ensures var shown := CustomClose(Attached(c, orientation, url), useCustomClose);
            |c.events| <= |shown.events| && shown.events == c.events + shown.events[|c.events|..] &&
            shown.state == c.state && shown.hasMraidListener == c.hasMraidListener &&
            Callbacks(shown.events[|c.events|..]) == []
  {
    var shown := CustomClose(Attached(c, orientation, url), useCustomClose);
    var silent := shown.events[|c.events|..];
    assert forall i :: 0 <= i < |silent| ==> !silent[i].Listener?;
    NoListenerNoCallbacks(silent);
  }

  /** handleExpand fires onExpand when it commits and a listener is set, and nothing otherwise. */
  lemma ExpandCallbacks(c: Ctrl, url: Option<string>, useCustomClose: bool)
    ensures var r := Expand(c, url, useCustomClose).next;
            |c.events| <= |r.events| &&
            Callbacks(r.events[|c.events|..]) ==
              if Expandable(c) && ApplyOrientation(c.orientation).Success? && c.hasMraidListener
              then [OnExpand] else []
  {
    if Expandable(c) && ApplyOrientation(c.orientation).Success? {
      var orientation := ApplyOrientation(c.orientation).value;
      AttachedAndCustomCloseSilent(c, orientation, url, useCustomClose);
      var shown := CustomClose(Attached(c, orientation, url), useCustomClose);
      CommitCallbacks(c, shown, shown.events[|c.events|..], Expanded);
    } else {
      assert Expand(c, url, useCustomClose).next.events[|c.events|..] == [];
    }
  }

  /**
   * handleClose as written breaks the invariant in exactly one situation: an
   * expanded two-part ad whose default container is hidden, which is what a
   * two-part expand from RESIZED leaves. The ad then reports DEFAULT with its
   * default container still invisible. Everywhere else it agrees with Close.
   */
  lemma CloseAsWrittenBreaksInv(c: Ctrl)
    requires Inv(c)
    ensures Inv(CloseAsWritten(c)) <==>
              !(c.hasWebView && c.state == Expanded && c.views.twoPartAttached && !c.views.defaultVisible)
    ensures !(c.hasWebView && c.state == Expanded && c.views.twoPartAttached && !c.views.defaultVisible) ==>
              CloseAsWritten(c) == Close(c)
  {
    if c.hasWebView && c.state == Expanded && c.views.twoPartAttached && !c.views.defaultVisible {
      var r := CloseAsWritten(c);
      assert r.state == Default && !r.views.defaultVisible;
    } else {
      CloseAsWrittenAgrees(c);
      CloseKeepsInv(c);
    }
  }

  /** Away from that situation the source's handleClose is Close. */
  lemma CloseAsWrittenAgrees(c: Ctrl)
    requires Inv(c)
    requires !(c.hasWebView && c.state == Expanded && c.views.twoPartAttached && !c.views.defaultVisible)
    ensures CloseAsWritten(c) == Close(c)
  {
    if c.hasWebView && (c.state == Resized || c.state == Expanded) {
      assert ClosedViewsAsWritten(c.views) == ClosedViews(c.views);
      assert c.(orientation := ClosedOrientation(c)).(views := ClosedViewsAsWritten(c.views)) == Closing(c);
    } else if c.hasWebView && c.state == Default {
      assert c.(orientation := ClosedOrientation(c)).(views := c.views.(defaultVisible := false)) == Closing(c);
    }
  }

  /** A 1080 by 1920 root view with the default container filling it. */
  function FullScreen(): ScreenMetrics {
    ScreenMetrics(Rect(0, 0, 1080, 1920), Rect(0, 0, 1080, 1920), Rect(0, 0, 1080, 1920))
  }

  /** A density of one and a 50 pixel close region in the top-right corner of a 300 by 250 ad at the origin. */
  predicate UnitDensity(env: Env) {
    env.dipsToPx(0) == 0 && env.dipsToPx(300) == 300 && env.dipsToPx(250) == 250 &&
    env.closeRegion(TopRight, Rect(0, 0, 300, 250)) == Rect(250, 0, 300, 50)
  }

  /** A portrait activity that declares no orientation of its own. */
  function HostActivity(): Activity {
    Activity(SCREEN_ORIENTATION_PORTRAIT, SCREEN_ORIENTATION_PORTRAIT,
             Some(ActivityInfo(SCREEN_ORIENTATION_UNSPECIFIED, CONFIG_ORIENTATION | CONFIG_SCREEN_SIZE)))
  }

  /** An inline ad whose page has loaded, with both listeners set. */
  function LoadedInline(): (c: Ctrl)
    ensures c.state == Default && c.hasWebView && c.placement == Inline && Inv(c)
  {
    InitialInv(Inline, FullScreen(), Some(HostActivity()), true, true, true);
    PageLoaded(Initial(Inline, FullScreen(), Some(HostActivity()), true, true, true))
  }

  /** The resize rectangle of resize(300, 250, 0, 0, top-right, false) on the full screen needs no clamp. */
  lemma ResizeExamplePlaced(env: Env)
    requires UnitDensity(env)
    ensures PlacedRect(FullScreen(), ResizeProperties(300, 250, 0, 0, TopRight, false), env) == Success(Rect(0, 0, 300, 250))
  {
    var m := FullScreen();
    var p := ResizeProperties(300, 250, 0, 0, TopRight, false);
    assert TargetRect(m, p, env) == Rect(0, 0, 300, 250);
    assert Within(Rect(0, 0, 300, 250), m.rootRect);
  }

  /** Its close region lies inside both the root view and the ad, so the resize is accepted. */
  lemma ResizeExampleGeometry(env: Env)
    requires UnitDensity(env)
    ensures CheckResize(FullScreen(), ResizeProperties(300, 250, 0, 0, TopRight, false), env)
            == Success(Rect(0, 0, 300, 250))
  {
    var m := FullScreen();
    var p := ResizeProperties(300, 250, 0, 0, TopRight, false);
    var rect := Rect(0, 0, 300, 250);
    assert PlacedRect(m, p, env) == Success(rect) by { ResizeExamplePlaced(env); }
    var close := env.closeRegion(p.closePosition, rect);
    assert m.rootRect.Contains(close) && rect.Contains(close) by { assert close == Rect(250, 0, 300, 50); }
  }

  /**
   * An inline ad in DEFAULT on the full screen whose orientation is not
   * forced, such as LoadedInline().
   */
  ghost predicate ShownInline(c: Ctrl) {
    Inv(c) && c.state == Default && c.hasWebView && c.placement == Inline && c.metrics == FullScreen() &&
    c.orientation.allowOrientationChange && c.orientation.forceOrientation == NoForce
  }

  lemma LoadedInlineShown()
    ensures ShownInline(LoadedInline())
  {
  }

  /** An accepted resize from DEFAULT moves the web view into the shown closeable container at the accepted rectangle. */
  lemma ResizeFromDefaultCommits(c: Ctrl, p: ResizeProperties, env: Env, rect: Rect)
    requires Resizable(c) && c.state == Default && CheckResize(c.metrics, p, env) == Success(rect)
    ensures var r := Resize(c, p, env);
            r.outcome == Pass && r.next.state == Resized && r.next.layout == Sized(rect) &&
            !r.next.views.closeVisible && r.next.views.closeableInRoot && r.next.orientation == c.orientation &&
            r.next.placement == c.placement && r.next.hasWebView
  {
  }

  /** A two-part expand from RESIZED leaves the primary web view in the hidden default container. */
  lemma TwoPartExpandFromResized(c: Ctrl, url: string, useCustomClose: bool)
    requires Expandable(c) && c.state == Resized && ApplyOrientation(c.orientation).Success?
    ensures var r := Expand(c, Some(url), useCustomClose).next;
            r.state == Expanded && r.hasWebView && r.views.twoPartAttached && !r.views.defaultVisible
  {
  }

  /** resize(300, 250, 0, 0, top-right, false) from DEFAULT commits a 300 by 250 ad at the origin. */
  lemma ResizeExample(c: Ctrl, p: ResizeProperties, env: Env)
    requires ShownInline(c) && UnitDensity(env) && p == ResizeProperties(300, 250, 0, 0, TopRight, false)
    ensures var r := Resize(c, p, env);
            r.outcome == Pass && r.next.state == Resized && r.next.layout == Sized(Rect(0, 0, 300, 250)) &&
            !r.next.views.closeVisible && r.next.views.closeableInRoot && r.next.orientation == c.orientation &&
            r.next.placement == c.placement && r.next.hasWebView
  {
    ResizeExampleGeometry(env);
    ResizeFromDefaultCommits(c, p, env, Rect(0, 0, 300, 250));
  }

  /** expand(no URL, custom close) from DEFAULT commits EXPANDED with the close button hidden and no two-part view. */
  lemma ExpandExample(c: Ctrl)
    requires ShownInline(c)
    ensures var r := Expand(c, None, true);
            r.outcome == Pass && r.next.state == Expanded && !r.next.views.closeVisible &&
            !r.next.views.twoPartAttached && r.next.views.primaryIn == CloseableContainer
  {
  }

  /** close() from that expanded state puts the primary web view back in a visible default container. */
  lemma CloseExample(c: Ctrl)
    requires ShownInline(c)
    ensures var r := Close(Expand(c, None, true).next);
            r.state == Default && r.views.primaryIn == DefaultContainer && r.views.defaultVisible &&
            !r.views.closeableInRoot
  {
    ExpandExample(c);
  }

  /**
   * Resize, then a two-part expand, then close: handleClose as written leaves
   * the ad in DEFAULT with nothing visible, while Close shows the ad again.
   */
  lemma ResizeTwoPartExpandCloseAsWritten(c: Ctrl, p: ResizeProperties, env: Env)
    requires ShownInline(c) && UnitDensity(env) && p == ResizeProperties(300, 250, 0, 0, TopRight, false)
    ensures var resized := Resize(c, p, env).next;
            var expanded := Expand(resized, Some("two-part.html"), false).next;
            var asWritten := CloseAsWritten(expanded);
            var corrected := Close(expanded);
            expanded.state == Expanded && expanded.views.twoPartAttached &&
            asWritten.state == Default && !asWritten.views.defaultVisible && !Inv(asWritten) &&
            corrected.state == Default && corrected.views.defaultVisible && Inv(corrected)
  {
    ResizeExample(c, p, env);
    var resized := Resize(c, p, env).next;
    ResizeKeepsInv(c, p, env);
    assert ApplyOrientation(resized.orientation).Success?;
    TwoPartExpandFromResized(resized, "two-part.html", false);
    var expanded := Expand(resized, Some("two-part.html"), false).next;
    ExpandKeepsInv(resized, Some("two-part.html"), false);
    CloseAsWrittenBreaksInv(expanded);
    CloseKeepsInv(expanded);
  }
}
