# MRAID controller

A verified model of the decision core of MoPub's `MraidController`, the host-side
controller of an MRAID rich-media ad (the IAB Mobile Rich Media Ad Interface
Definitions). The creative drives it with the `resize`, `expand`, `close`,
`useCustomClose` and `setOrientationProperties` commands; the controller moves
the ad between the view states LOADING, DEFAULT, RESIZED, EXPANDED and HIDDEN,
rearranges its web views between the default and the closeable container,
locks and unlocks the activity orientation, reports each state change to the
bridges and to at most one `MraidListener` callback, and measures the screen
through a countdown barrier (`ScreenMetricsWaiter.WaitRequest`).

- `wrappers.dfy` (`Wrappers`): `Option`, `Result` and `Outcome`.
- `view_state.dfy` (`ViewStates`): the view states, placements and the listener-callback rules.
- `geometry.dfy` (`Geometry`): the resize rectangle, the on-screen clamp, the close-region checks and the rejection messages.
- `orientation.dfy` (`Orientation`): which forced orientations an activity permits, lock, apply, unlock and the orientation properties.
- `barrier.dfy` (`Barrier`): the wait request as a value, with the events "handler delivers the waiting runnable", "a view draws" and "cancel".
- `waiter.dfy` (`Waiter`): the classes `WaitRequest` and `ScreenMetricsWaiter`, each method proved against `Barrier`.
- `controller_spec.dfy` (`ControllerSpec`): the controller as a value (`Ctrl`) with an abstract view hierarchy and a log of outbound calls, one function per command, and the invariant tying the hierarchy to the view state.
- `controller_props.dfy` (`ControllerProps`): the invariant across commands and command sequences, legal transitions, the callbacks each command fires, and worked examples.
- `controller.dfy` (`Controller`): the class `MraidController`, whose fields the command handlers update; each command handler (`HandleResize`, `HandleExpand`, `HandleClose`, `HandleCustomClose`, `HandleSetOrientationProperties`, `OnPageLoaded`, `OnTwoPartPageLoaded`, `OnShow`, `Destroy`) is proved to leave `Snapshot()` at the matching `ControllerSpec` function of the old snapshot; the orientation helpers are proved against the `Orientation` functions on the orientation field, `Pause` and `Resume` set one flag, and `UpdateScreenMetricsAsync` is proved against `Barrier` on the pending request.

The dip-to-pixel conversion and the close-region placement of `CloseableLayout`
are opaque functions in `Geometry.Env`; the bridges, listeners and
`MraidNativeCommandHandler` are recorded as outbound events; the screen
orientation the device reports is a field of the activity.

## Model

| member | source | states |
|---|---|---|
| ViewStates.ListenerCallback | mopub-sdk/mopub-sdk-base/src/main/java/com/mopub/mraid/MraidController.java:688-705 | each callback fires for exactly the state pairs the ordered rules give it (onExpand iff next is EXPANDED; onClose iff next is HIDDEN or EXPANDED to DEFAULT; onResize(true) iff RESIZED to DEFAULT; onResize(false) iff next is RESIZED); nothing fires exactly when the next state is LOADING, or DEFAULT not coming from RESIZED or EXPANDED |
| ViewStates.CallbackList | mopub-sdk/mopub-sdk-base/src/main/java/com/mopub/mraid/MraidController.java:688-705 | at most one callback fires for a state change, and it is the one ListenerCallback picks |
| ViewStates.EdgeCallbacks | mopub-sdk/mopub-sdk-base/src/main/java/com/mopub/mraid/MraidController.java:668-705 | along an edge of the view-state machine a callback fires exactly when the edge does not leave LOADING, and a return to DEFAULT reports onClose from EXPANDED and onResize(true) from RESIZED |
| Geometry.Rect.OffsetTo | mopub-sdk/mopub-sdk-base/src/main/java/com/mopub/mraid/MraidController.java:755-757 | Rect.offsetTo moves the rectangle to the new corner and keeps its width and height |
| Geometry.ClampInt | mopub-sdk/mopub-sdk-base/src/main/java/com/mopub/mraid/MraidController.java:707-709 | clampInt lies between min and max when min <= max, returns the target when it is in range, min when the target or max is below min, and max when the target is above it |
| Geometry.TargetRect | mopub-sdk/mopub-sdk-base/src/main/java/com/mopub/mraid/MraidController.java:734-740 | the requested rectangle: the default container's origin moved by the offset in pixels, with the requested width and height in pixels |
| Geometry.PlaceOnScreen | mopub-sdk/mopub-sdk-base/src/main/java/com/mopub/mraid/MraidController.java:742-758 | without offscreen permission a rectangle wider or taller than the root view is refused; otherwise it is moved inside the root view with its size kept, and a rectangle already inside is not moved |
| Geometry.CheckResize | mopub-sdk/mopub-sdk-base/src/main/java/com/mopub/mraid/MraidController.java:733-783 | the resize validation: refuses a too-large ad, then a close region outside the root view, then a close region outside the ad, each exactly when that check fails; an accepted rectangle has the requested pixel size, a non-empty area and a close region inside both the root view and the ad, and without offscreen permission lies inside the root view |
| Geometry.RejectionMessage | mopub-sdk/mopub-sdk-base/src/main/java/com/mopub/mraid/MraidController.java:745-782 | the corrected message numbers: every rejection echoes the requested size and offset in dips, and the two first rejections also report the root view size in dips |
| Geometry.RejectionMessageAsWritten | mopub-sdk/mopub-sdk-base/src/main/java/com/mopub/mraid/MraidController.java:745-776 | the message numbers as the source builds them: the size and offset in dips, except the height of the close-region-outside-ad message, which is in pixels; only the two first rejections report the root view size |
| Geometry.RejectionMessageAsWrittenDiffers | mopub-sdk/mopub-sdk-base/src/main/java/com/mopub/mraid/MraidController.java:772-776 | the messages as written differ from the corrected ones exactly for a close region outside the ad, when the height in pixels differs from the height in dips |
| Geometry.RejectionMessageAsWrittenAtDensityTwo | mopub-sdk/mopub-sdk-base/src/main/java/com/mopub/mraid/MraidController.java:772-776 | at density 2 a 50-dip-high request is reported 100 high by the source and 50 high by the corrected message |
| Orientation.ActivityInfoOrientation | mopub-sdk/mopub-sdk-base/src/main/java/com/mopub/mraid/MraidController.java:967 | the activity orientation of each MRAID orientation: unspecified exactly for none, portrait for portrait, landscape for landscape |
| Orientation.HandlesConfigChangesMask | mopub-sdk/mopub-sdk-base/src/main/java/com/mopub/mraid/MraidController.java:1009-1016 | the activity handles both configuration changes exactly when its configChanges mask contains both the orientation and the screen-size flags |
| Orientation.ShouldAllowForceOrientation | mopub-sdk/mopub-sdk-base/src/main/java/com/mopub/mraid/MraidController.java:981-1017 | none is always allowed; without an activity or its manifest entry nothing else is; a manifest orientation permits exactly itself; otherwise both flags must be in configChanges |
| Orientation.ForcedOrientationsAllowed | mopub-sdk/mopub-sdk-base/src/main/java/com/mopub/mraid/MraidController.java:997-1017 | an activity with a manifest orientation permits at most one of portrait and landscape; one without permits both or neither |
| Orientation.LockOrientation | mopub-sdk/mopub-sdk-base/src/main/java/com/mopub/mraid/MraidController.java:933-945 | lockOrientation fails exactly when there is no activity or the force orientation is not allowed; otherwise it requests the orientation and saves the previous one only if none is saved, keeping the properties |
| Orientation.UnApplyOrientation | mopub-sdk/mopub-sdk-base/src/main/java/com/mopub/mraid/MraidController.java:972-978 | unApplyOrientation restores the saved orientation when there is an activity and always forgets it, keeping the properties |
| Orientation.ApplyOrientation | mopub-sdk/mopub-sdk-base/src/main/java/com/mopub/mraid/MraidController.java:948-969 | applyOrientation with none unlocks when changes are allowed, fails without an activity otherwise, and else locks to the current orientation; a concrete orientation locks to it; a success keeps the properties |
| Orientation.SetOrientationProperties | mopub-sdk/mopub-sdk-base/src/main/java/com/mopub/mraid/MraidController.java:1099-1113 | a refused force orientation changes nothing; an accepted one stores both properties; without an immediate apply nothing else changes |
| Orientation.RepeatedLockKeepsFirstOriginal | mopub-sdk/mopub-sdk-base/src/main/java/com/mopub/mraid/MraidController.java:940-942 | a second lock succeeds too and keeps the orientation saved by the first |
| Orientation.UnApplyIdempotent | mopub-sdk/mopub-sdk-base/src/main/java/com/mopub/mraid/MraidController.java:972-978 | a second unApplyOrientation changes nothing |
| Orientation.LocksThenUnApplyRestore | mopub-sdk/mopub-sdk-base/src/main/java/com/mopub/mraid/MraidController.java:933-978 | one or two locks followed by one unlock restore the activity and lock state held before the first lock |
| Orientation.AcceptedForceAlwaysApplies | mopub-sdk/mopub-sdk-base/src/main/java/com/mopub/mraid/MraidController.java:1099-1113 | once accepted, a concrete force orientation applied now always succeeds and requests that orientation |
| Orientation.SetOrientationPropertiesPartialFailure | mopub-sdk/mopub-sdk-base/src/main/java/com/mopub/mraid/MraidController.java:1099-1113 | after the properties are accepted the command fails exactly when it applies none with changes disallowed and no activity |
| Barrier.CountDown | mopub-sdk/mopub-sdk-base/src/main/java/com/mopub/mraid/MraidController.java:433-439 | countDown decrements the count and runs the continuation once, exactly when it is still set and the count reaches zero, then drops it |
| Barrier.Start | mopub-sdk/mopub-sdk-base/src/main/java/com/mopub/mraid/MraidController.java:466-470 | start arms the continuation, sets the count to the number of views and queues the waiting runnable, keeping the observers and the run count |
| Barrier.VisitViews | mopub-sdk/mopub-sdk-base/src/main/java/com/mopub/mraid/MraidController.java:443-461 | the loop of the waiting runnable adds observers and never removes one, and keeps the queue flag and the view count |
| Barrier.RunWaiting | mopub-sdk/mopub-sdk-base/src/main/java/com/mopub/mraid/MraidController.java:441-464 | delivering the waiting runnable unqueues it; a request no longer queued is unchanged; observers are only added |
| Barrier.PreDraw | mopub-sdk/mopub-sdk-base/src/main/java/com/mopub/mraid/MraidController.java:453-461 | a pre-draw pass removes the view's observer and counts down exactly when one was registered, and otherwise changes nothing |
| Barrier.Cancel | mopub-sdk/mopub-sdk-base/src/main/java/com/mopub/mraid/MraidController.java:472-475 | cancel drops the continuation and unqueues the waiting runnable, keeping the count, the observers and the run count |
| Barrier.VisitViewsState | mopub-sdk/mopub-sdk-base/src/main/java/com/mopub/mraid/MraidController.java:441-464 | in the waiting loop the unsized views seen so far are observed, the sized ones counted down, and the continuation has run exactly when the count reached zero |
| Barrier.StartedInv | mopub-sdk/mopub-sdk-base/src/main/java/com/mopub/mraid/MraidController.java:466-470 | a started request satisfies the barrier invariant |
| Barrier.StepKeepsInv | mopub-sdk/mopub-sdk-base/src/main/java/com/mopub/mraid/MraidController.java:433-475 | delivery of the waiting runnable, a pre-draw and cancel each keep the barrier invariant |
| Barrier.RunKeepsInv | mopub-sdk/mopub-sdk-base/src/main/java/com/mopub/mraid/MraidController.java:433-475 | every sequence of those events keeps the invariant |
| Barrier.AtMostOnce | mopub-sdk/mopub-sdk-base/src/main/java/com/mopub/mraid/MraidController.java:433-475 | whatever happens after start, the continuation runs at most once |
| Barrier.NeverAfterCancel | mopub-sdk/mopub-sdk-base/src/main/java/com/mopub/mraid/MraidController.java:472-475 | after cancel, no event runs the continuation |
| Barrier.DrawsFire | mopub-sdk/mopub-sdk-base/src/main/java/com/mopub/mraid/MraidController.java:441-464 | once every observed view has drawn, a live request has run its continuation |
| Barrier.ExactlyOnce | mopub-sdk/mopub-sdk-base/src/main/java/com/mopub/mraid/MraidController.java:433-470 | a request over at least one view, delivered and followed by a draw of every unsized view, runs its continuation exactly once |
| Waiter.WaitRequest.constructor | mopub-sdk/mopub-sdk-base/src/main/java/com/mopub/mraid/MraidController.java:428-431 | a new request over the given views, not started |
| Waiter.WaitRequest.Start | mopub-sdk/mopub-sdk-base/src/main/java/com/mopub/mraid/MraidController.java:466-470 | start sets the continuation, counts every view and queues the waiting runnable, establishing the invariant |
| Waiter.WaitRequest.CountDown | mopub-sdk/mopub-sdk-base/src/main/java/com/mopub/mraid/MraidController.java:433-439 | the fields after countDown are Barrier.CountDown of the fields before |
| Waiter.WaitRequest.RunWaiting | mopub-sdk/mopub-sdk-base/src/main/java/com/mopub/mraid/MraidController.java:441-464 | the loop over the views leaves the fields at Barrier.RunWaiting of the fields before |
| Waiter.WaitRequest.PreDraw | mopub-sdk/mopub-sdk-base/src/main/java/com/mopub/mraid/MraidController.java:453-461 | a pre-draw pass leaves the fields at Barrier.PreDraw of the fields before |
| Waiter.WaitRequest.Cancel | mopub-sdk/mopub-sdk-base/src/main/java/com/mopub/mraid/MraidController.java:472-475 | cancel leaves the fields at Barrier.Cancel of the fields before |
| Waiter.ScreenMetricsWaiter.constructor | mopub-sdk/mopub-sdk-base/src/main/java/com/mopub/mraid/MraidController.java:478-479 | no request is pending |
| Waiter.ScreenMetricsWaiter.WaitFor | mopub-sdk/mopub-sdk-base/src/main/java/com/mopub/mraid/MraidController.java:481-484 | a fresh, unstarted request becomes the last one |
| Waiter.ScreenMetricsWaiter.CancelLastRequest | mopub-sdk/mopub-sdk-base/src/main/java/com/mopub/mraid/MraidController.java:486-491 | the last request, if any, is cancelled and forgotten |
| ControllerSpec.ListenerEvents | mopub-sdk/mopub-sdk-base/src/main/java/com/mopub/mraid/MraidController.java:679-681 | the listener part of setViewState, built from CallbackList: one entry exactly when a callback fires, and it is that callback |
| ControllerSpec.HasCurrentWebView | mopub-sdk/mopub-sdk-base/src/main/java/com/mopub/mraid/MraidController.java:495-498 | getCurrentWebView() != null: the two-part web view when attached, otherwise the primary one |
| ControllerSpec.SetViewState | mopub-sdk/mopub-sdk-base/src/main/java/com/mopub/mraid/MraidController.java:668-686 | setViewState commits the state and changes nothing else but the log; the primary bridge hears of it first, the two-part bridge exactly when it has loaded, at most three calls in all, and the last is the listener callback when there is a listener and a callback, with no callback logged without a listener |
| ControllerSpec.CustomClose | mopub-sdk/mopub-sdk-base/src/main/java/com/mopub/mraid/MraidController.java:1020-1034 | handleCustomClose leaves the close button visible exactly when custom close is off, changes nothing for the current value, and otherwise flips it and tells the custom-close listener once |
| ControllerSpec.UsingCustomClose | mopub-sdk/mopub-sdk-base/src/main/java/com/mopub/mraid/MraidController.java:1032-1034 | isUsingCustomClose(): custom close is in use exactly when the close button is hidden |
| ControllerSpec.CustomCloseIdempotent | mopub-sdk/mopub-sdk-base/src/main/java/com/mopub/mraid/MraidController.java:1020-1030 | applying the same custom-close value twice is the same as once |
| ControllerSpec.Resize | mopub-sdk/mopub-sdk-base/src/main/java/com/mopub/mraid/MraidController.java:712-799 | no web view errors, LOADING and HIDDEN are no-ops, EXPANDED and interstitials error, every refusal leaves the controller unchanged; in DEFAULT or RESIZED inline the command fails exactly when the geometry does, with its message; a commit is RESIZED at the validated rectangle with the close button hidden and the web view in the closeable container in the root view |
| ControllerSpec.ExpandedViews | mopub-sdk/mopub-sdk-base/src/main/java/com/mopub/mraid/MraidController.java:818-852 | the hierarchy expand builds from DEFAULT and from RESIZED, with and without a two-part web view; the two-part view is attached iff a URL is given, and from RESIZED with one the primary web view returns to the hidden default container |
| ControllerSpec.Attached | mopub-sdk/mopub-sdk-base/src/main/java/com/mopub/mraid/MraidController.java:817-853 | the web view moves keep the state, take the applied orientation and full size, and a new two-part bridge counts as not loaded |
| ControllerSpec.Expand | mopub-sdk/mopub-sdk-base/src/main/java/com/mopub/mraid/MraidController.java:801-859 | no web view errors; interstitials and states other than DEFAULT and RESIZED are no-ops; otherwise the command fails exactly when applyOrientation fails, changing nothing, and else ends EXPANDED full size with the applied orientation and the close button visible iff custom close is off |
| ControllerSpec.ClosedViewsAsWritten | mopub-sdk/mopub-sdk-base/src/main/java/com/mopub/mraid/MraidController.java:870-884 | as written, closing detaches the two-part web view and leaves the default container as it was, or moves the primary web view back into a visible default container; the closeable container leaves the root view |
| ControllerSpec.CloseAsWritten | mopub-sdk/mopub-sdk-base/src/main/java/com/mopub/mraid/MraidController.java:862-898 | handleClose as written: no-op without a web view or in LOADING and HIDDEN; RESIZED and EXPANDED go to DEFAULT with the closing hierarchy; DEFAULT goes to HIDDEN with the default container hidden; the orientation is unlocked when expanded or interstitial |
| ControllerSpec.ClosedViews | mopub-sdk/mopub-sdk-base/src/main/java/com/mopub/mraid/MraidController.java:870-884 | the corrected closing hierarchy: the two-part web view detached, the closeable container out of the root view, and the default container visible in both branches |
| ControllerSpec.Close | mopub-sdk/mopub-sdk-base/src/main/java/com/mopub/mraid/MraidController.java:862-898 | handleClose with the corrected hierarchy: the same guards and transitions as the source, with the default container visible whenever the ad returns to DEFAULT |
| ControllerSpec.PageLoaded | mopub-sdk/mopub-sdk-base/src/main/java/com/mopub/mraid/MraidController.java:192-198 | the first page load of the primary bridge commits DEFAULT without moving any view; a repeated one changes nothing |
| ControllerSpec.HandlePageLoad | mopub-sdk/mopub-sdk-base/src/main/java/com/mopub/mraid/MraidController.java:519-531 | handlePageLoad leaves the log as the old log, the four announcements to the primary bridge, the DEFAULT notice and, last, ready; the state is DEFAULT and the views and orientation are unchanged |
| ControllerSpec.TwoPartPageLoaded | mopub-sdk/mopub-sdk-base/src/main/java/com/mopub/mraid/MraidController.java:534-550 | the two-part bridge counts as loaded; state, views, orientation and log are unchanged (its own notifications wait for the metrics) |
| ControllerSpec.SetProperties | mopub-sdk/mopub-sdk-base/src/main/java/com/mopub/mraid/MraidController.java:1099-1113 | a refused force orientation errors and changes nothing; accepted properties are stored, and applied at once (with applyOrientation's outcome) exactly when the ad is EXPANDED or a showing interstitial; only the orientation fields change |
| ControllerSpec.Show | mopub-sdk/mopub-sdk-base/src/main/java/com/mopub/mraid/MraidController.java:383-393 | onShow stores the activity, tells the custom-close listener the current value, and applies the lock to the new activity when applyOrientation succeeds, keeping the lock with the new activity otherwise; nothing else changes |
| ControllerSpec.Destroy | mopub-sdk/mopub-sdk-base/src/main/java/com/mopub/mraid/MraidController.java:633-656 | destroy detaches both web views, takes the closeable container out of the root view, pauses, and gives the activity back its saved orientation (unApplyOrientation); the view state, placement and log are unchanged |
| ControllerSpec.Dispatch | mopub-sdk/mopub-sdk-base/src/main/java/com/mopub/mraid/MraidController.java:191-330 | the two-part bridge refuses resize, ignores expand and a failed load; the primary bridge's visibility is dropped while a two-part web view is attached |
| ControllerProps.InitialInv | mopub-sdk/mopub-sdk-base/src/main/java/com/mopub/mraid/MraidController.java:141-188 | a new controller satisfies the invariant: its hierarchy matches LOADING |
| ControllerProps.ResizeKeepsInv | mopub-sdk/mopub-sdk-base/src/main/java/com/mopub/mraid/MraidController.java:712-799 | handleResize keeps the invariant |
| ControllerProps.ExpandKeepsInv | mopub-sdk/mopub-sdk-base/src/main/java/com/mopub/mraid/MraidController.java:801-859 | handleExpand keeps the invariant |
| ControllerProps.CloseKeepsInv | mopub-sdk/mopub-sdk-base/src/main/java/com/mopub/mraid/MraidController.java:862-898 | the corrected handleClose keeps the invariant |
| ControllerProps.PageLoadedKeepsInv | mopub-sdk/mopub-sdk-base/src/main/java/com/mopub/mraid/MraidController.java:519-531 | the page load keeps the invariant |
| ControllerProps.DispatchKeepsInv | mopub-sdk/mopub-sdk-base/src/main/java/com/mopub/mraid/MraidController.java:191-330 | every command from either bridge or the host keeps the invariant |
| ControllerProps.ReplayKeepsInv | mopub-sdk/mopub-sdk-base/src/main/java/com/mopub/mraid/MraidController.java:191-330 | every sequence of commands keeps the invariant |
| ControllerProps.ReachableInv | mopub-sdk/mopub-sdk-base/src/main/java/com/mopub/mraid/MraidController.java:141-330 | every controller reachable from construction satisfies the invariant |
| ControllerProps.DispatchLegal | mopub-sdk/mopub-sdk-base/src/main/java/com/mopub/mraid/MraidController.java:668-686 | a command leaves the view state alone or moves it along an edge of the MRAID state machine |
| ControllerProps.SetPropertiesDeferredInline | mopub-sdk/mopub-sdk-base/src/main/java/com/mopub/mraid/MraidController.java:1108-1112 | accepted properties on an inline ad that is not expanded are stored without touching the activity or the saved orientation |
| ControllerProps.SetPropertiesLocksWhenExpanded | mopub-sdk/mopub-sdk-base/src/main/java/com/mopub/mraid/MraidController.java:1108-1112 | an accepted forced orientation while EXPANDED succeeds and locks the activity to that orientation at once |
| ControllerProps.StateEventsCallbacks | mopub-sdk/mopub-sdk-base/src/main/java/com/mopub/mraid/MraidController.java:668-686 | setViewState fires the one callback its state pair calls for, and only with a listener |
| ControllerProps.ResizeCallbacks | mopub-sdk/mopub-sdk-base/src/main/java/com/mopub/mraid/MraidController.java:712-799 | handleResize fires onResize(false) exactly when it commits with a listener, and nothing otherwise |
| ControllerProps.CloseCallbacks | mopub-sdk/mopub-sdk-base/src/main/java/com/mopub/mraid/MraidController.java:862-898 | handleClose fires onResize(true) from RESIZED and onClose from EXPANDED or DEFAULT, with a listener, and nothing when it is a no-op |
| ControllerProps.ExpandCallbacks | mopub-sdk/mopub-sdk-base/src/main/java/com/mopub/mraid/MraidController.java:801-859 | handleExpand fires onExpand exactly when it commits with a listener, and nothing otherwise |
| ControllerProps.CloseAsWrittenBreaksInv | mopub-sdk/mopub-sdk-base/src/main/java/com/mopub/mraid/MraidController.java:862-898 | handleClose as written breaks the invariant exactly for an expanded two-part ad whose default container is hidden, and agrees with Close everywhere else |
| ControllerProps.CloseAsWrittenAgrees | mopub-sdk/mopub-sdk-base/src/main/java/com/mopub/mraid/MraidController.java:862-898 | away from that case handleClose as written is Close |
| ControllerProps.LoadedInline | mopub-sdk/mopub-sdk-base/src/main/java/com/mopub/mraid/MraidController.java:192-198 | an inline ad whose page has loaded is in DEFAULT with its web view and satisfies the invariant |
| ControllerProps.ResizeExamplePlaced | mopub-sdk/mopub-sdk-base/src/main/java/com/mopub/mraid/MraidController.java:742-758 | resize(300, 250, 0, 0) at density one on a full-screen ad needs no clamp |
| ControllerProps.ResizeExampleGeometry | mopub-sdk/mopub-sdk-base/src/main/java/com/mopub/mraid/MraidController.java:733-783 | its close region lies inside the root view and the ad, so the geometry is accepted |
| ControllerProps.LoadedInlineShown | mopub-sdk/mopub-sdk-base/src/main/java/com/mopub/mraid/MraidController.java:192-198 | the loaded inline ad is shown inline in DEFAULT with no forced orientation |
| ControllerProps.ResizeFromDefaultCommits | mopub-sdk/mopub-sdk-base/src/main/java/com/mopub/mraid/MraidController.java:785-798 | an accepted resize from DEFAULT commits RESIZED with the closeable container in the root view at the rectangle and the close button hidden |
| ControllerProps.TwoPartExpandFromResized | mopub-sdk/mopub-sdk-base/src/main/java/com/mopub/mraid/MraidController.java:838-848 | a two-part expand from RESIZED leaves the primary web view in the hidden default container |
| ControllerProps.ResizeExample | mopub-sdk/mopub-sdk-base/src/main/java/com/mopub/mraid/MraidController.java:712-799 | the resize example commits a 300 by 250 ad at the origin |
| ControllerProps.ExpandExample | mopub-sdk/mopub-sdk-base/src/main/java/com/mopub/mraid/MraidController.java:801-859 | expand with no URL and custom close from DEFAULT commits EXPANDED with the close button hidden |
| ControllerProps.CloseExample | mopub-sdk/mopub-sdk-base/src/main/java/com/mopub/mraid/MraidController.java:862-898 | closing that expanded ad puts the web view back in a visible default container |
| ControllerProps.ResizeTwoPartExpandCloseAsWritten | mopub-sdk/mopub-sdk-base/src/main/java/com/mopub/mraid/MraidController.java:838-884 | resize, two-part expand, close: as written the ad ends in DEFAULT with its default container hidden, breaking the invariant; Close shows it and keeps the invariant |
| Controller.MraidController.constructor | mopub-sdk/mopub-sdk-base/src/main/java/com/mopub/mraid/MraidController.java:141-188 | a new controller is Initial: LOADING, web view in the visible default container, no pending metrics request |
| Controller.MraidController.UpdateScreenMetricsAsync | mopub-sdk/mopub-sdk-base/src/main/java/com/mopub/mraid/MraidController.java:556-564 | the pending request is cancelled; a new two-view request is started exactly when there is a current web view |
| Controller.MraidController.CommitViewState | mopub-sdk/mopub-sdk-base/src/main/java/com/mopub/mraid/MraidController.java:668-684 | the new fields are ControllerSpec.SetViewState of the old |
| Controller.MraidController.SetViewState | mopub-sdk/mopub-sdk-base/src/main/java/com/mopub/mraid/MraidController.java:668-686 | commits and reports the state as ControllerSpec.SetViewState, cancels the pending request and keeps the barrier invariant |
| Controller.MraidController.LockOrientation | mopub-sdk/mopub-sdk-base/src/main/java/com/mopub/mraid/MraidController.java:933-945 | the orientation fields follow Orientation.LockOrientation, and nothing is changed on failure |
| Controller.MraidController.UnApplyOrientation | mopub-sdk/mopub-sdk-base/src/main/java/com/mopub/mraid/MraidController.java:972-978 | the orientation fields follow Orientation.UnApplyOrientation |
| Controller.MraidController.ApplyOrientation | mopub-sdk/mopub-sdk-base/src/main/java/com/mopub/mraid/MraidController.java:948-969 | the orientation fields follow Orientation.ApplyOrientation, and nothing is changed on failure |
| Controller.MraidController.StoreOrientationProperties | mopub-sdk/mopub-sdk-base/src/main/java/com/mopub/mraid/MraidController.java:1099-1113 | the orientation fields and the outcome follow Orientation.SetOrientationProperties |
| Controller.MraidController.HandleSetOrientationProperties | mopub-sdk/mopub-sdk-base/src/main/java/com/mopub/mraid/MraidController.java:1099-1113 | the new state and outcome are ControllerSpec.SetProperties of the old state, and the invariant is kept |
| Controller.MraidController.HandleCustomClose | mopub-sdk/mopub-sdk-base/src/main/java/com/mopub/mraid/MraidController.java:1020-1030 | the new state is ControllerSpec.CustomClose of the old, and the invariant is kept |
| Controller.MraidController.HandleResize | mopub-sdk/mopub-sdk-base/src/main/java/com/mopub/mraid/MraidController.java:712-799 | the new state and outcome are ControllerSpec.Resize of the old state, and the invariant is kept |
| Controller.MraidController.PlaceResized | mopub-sdk/mopub-sdk-base/src/main/java/com/mopub/mraid/MraidController.java:785-796 | the view moves of a validated resize |
| Controller.MraidController.HandleExpand | mopub-sdk/mopub-sdk-base/src/main/java/com/mopub/mraid/MraidController.java:801-859 | the new state and outcome are ControllerSpec.Expand of the old state, and the invariant is kept |
| Controller.MraidController.CompleteExpand | mopub-sdk/mopub-sdk-base/src/main/java/com/mopub/mraid/MraidController.java:817-858 | after the orientation lock, the remaining steps of handleExpand reach ControllerSpec.Expand |
| Controller.MraidController.AttachForExpand | mopub-sdk/mopub-sdk-base/src/main/java/com/mopub/mraid/MraidController.java:817-853 | the view moves of handleExpand are ControllerSpec.Attached |
| Controller.MraidController.HandleClose | mopub-sdk/mopub-sdk-base/src/main/java/com/mopub/mraid/MraidController.java:862-898 | the new state is ControllerSpec.Close of the old, and the invariant is kept |
| Controller.MraidController.PrepareClose | mopub-sdk/mopub-sdk-base/src/main/java/com/mopub/mraid/MraidController.java:867-893 | the unlock and view moves of handleClose before the state is committed |
| Controller.MraidController.OnPageLoaded | mopub-sdk/mopub-sdk-base/src/main/java/com/mopub/mraid/MraidController.java:192-198 | the new state is ControllerSpec.PageLoaded of the old, and the invariant is kept |
| Controller.MraidController.OnTwoPartPageLoaded | mopub-sdk/mopub-sdk-base/src/main/java/com/mopub/mraid/MraidController.java:534-550 | the new state is ControllerSpec.TwoPartPageLoaded of the old; the pending metrics request is cancelled and a new two-view request started exactly when there is a current web view; the invariant is kept |
| Controller.MraidController.OnShow | mopub-sdk/mopub-sdk-base/src/main/java/com/mopub/mraid/MraidController.java:383-393 | the new state is ControllerSpec.Show of the old, and the invariant is kept |
| Controller.MraidController.Pause | mopub-sdk/mopub-sdk-base/src/main/java/com/mopub/mraid/MraidController.java:609-619 | only the paused flag is set |
| Controller.MraidController.Resume | mopub-sdk/mopub-sdk-base/src/main/java/com/mopub/mraid/MraidController.java:621-631 | only the paused flag is cleared |
| Controller.MraidController.Destroy | mopub-sdk/mopub-sdk-base/src/main/java/com/mopub/mraid/MraidController.java:633-656 | the new state is ControllerSpec.Destroy of the old, the pending request is cancelled and forgotten |

## Left out

- Geometry.CheckResize: pixel arithmetic is on unbounded integers, so a Java `int` overflow of the rectangle edges is not modelled.
- `Dips.dipsToIntPixels` (float density) and `CloseableLayout.applyCloseRegionBounds` are not part of this model; both are opaque functions in `Geometry.Env`.
- The measurement inside `updateScreenMetricsAsync` (display metrics, `getLocationOnScreen`, the `MraidScreenMetrics` setters) and the continuation it runs are left out; metrics are a fixed value of the controller.
- `MraidBridge` is not part of this model: its notifications are log entries, its `isViewable()` is the opaque `OwnViewability` notice, attaching a two-part web view is taken to reset the bridge's loaded flag, and the bridge is taken to report its page load once (`PageLoaded` ignores a repeat).
- The continuation `handleTwoPartPageLoad` passes to the metrics request (the two-part bridge's notifications) is left out with the measurement; `OnTwoPartPageLoaded` only marks the bridge loaded and requests metrics.
- `OrientationBroadcastReceiver`, `handleOrientationChange` and the exception filtering in `destroy` are Android broadcast I/O and are left out.
- `handleOpen`, `handleShowVideo`, `handleConsoleMessage`, `handleJsAlert`, `fillContent` and `onPreloadFinished` are foreign calls with no state of their own; the constructor's controller stands for one whose content has already been filled.
- The `WebView` pause and resume calls in `pause`, `resume` and `destroy` are left out; only `mIsPaused` is modelled.
- Exception message strings are modelled by the numbers they report (`Geometry.ResizeMessage`) or by their reason, not as text.
- A wait request over zero views never runs its continuation (the count never reaches zero); the controller always waits for two views.
- No listener callback fires for LOADING to DEFAULT (the first page load reports `onLoaded` instead); `ViewStates.EdgeCallbacks` states it.
- The MraidListener and the custom-close listener are fixed when the controller is built (`hasMraidListener` and `hasCloseListener` are constants); `setMraidListener` and `setUseCustomCloseListener` (MraidController.java:332-338), which can replace or clear them at any time, are not modelled.

## Findings

| source | as written | input that shows it | evidently intended | confidence | as-written member | corrected member |
|---|---|---|---|---|---|---|
| mopub-sdk/mopub-sdk-base/src/main/java/com/mopub/mraid/MraidController.java:772-776 | the close-region-outside-ad rejection reports `height` in pixels next to the width and offsets in dips | density 2, resize(300, 50, ...) with the close region outside the ad: the message says (300, 100) | report `heightDips`, like the two other messages | not executed | Geometry.RejectionMessageAsWrittenAtDensityTwo | Geometry.RejectionMessage |
| mopub-sdk/mopub-sdk-base/src/main/java/com/mopub/mraid/MraidController.java:878-883 | closing a two-part expand removes the two-part web view but never makes the default container visible again | resize from DEFAULT, then expand with a URL (which hides the default container, lines 843-849), then close: the ad is DEFAULT with nothing visible | show the default container whenever the ad returns to DEFAULT | not executed | ControllerProps.ResizeTwoPartExpandCloseAsWritten | ControllerSpec.Close |
