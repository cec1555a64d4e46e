/**
 * The countdown barrier of ScreenMetricsWaiter.WaitRequest, as values: a
 * request waits for its views to be laid out and then runs its continuation
 * once. Posting to the main-thread handler and the one-shot pre-draw
 * observers are explicit events.
 */
module Barrier {

  /**
   * A wait request over `viewCount` views: the countdown, whether the
   * continuation is still set, whether the waiting runnable is queued on the
   * handler, the views with a pre-draw observer registered, and how many times
   * the continuation has run.
   */
  datatype Request = Request(
    viewCount: nat,
    waitCount: int,
    armed: bool,
    posted: bool,
    observers: set<nat>,
    runs: nat)

  /** What can happen to a request after it is started. */
  datatype Event =
    | Delivered(sizedViews: set<nat>)   // the handler runs the queued runnable; these views already have a size
    | Drawn(view: nat)                  // a pre-draw pass of one view
    | Cancelled                         // cancel()

  /** A new request, before start. */
  function Created(viewCount: nat): Request {
    Request(viewCount, 0, false, false, {}, 0)
  }

  /** start: set the continuation, count every view and queue the waiting runnable. */
  function Start(r: Request): (s: Request)
    ensures s.armed && s.posted && s.waitCount == r.viewCount
    ensures s.viewCount == r.viewCount && s.observers == r.observers && s.runs == r.runs
  {
    r.(armed := true, waitCount := r.viewCount, posted := true)
  }

  /** countDown: one view fewer to wait for; at zero run the continuation once and drop it. */
  function CountDown(r: Request): (s: Request)
    ensures s.waitCount == r.waitCount - 1
    ensures s.runs == r.runs + 1 <==> r.armed && s.waitCount == 0
    ensures s.runs == r.runs + 1 || s.runs == r.runs
    ensures s.armed <==> r.armed && s.waitCount != 0
    ensures s.viewCount == r.viewCount && s.posted == r.posted && s.observers == r.observers
  {
    var count := r.waitCount - 1;
    if count == 0 && r.armed then r.(waitCount := count, armed := false, runs := r.runs + 1)
    else r.(waitCount := count)
  }

  /** One iteration of the waiting runnable: count a view that has a size, otherwise observe its next draw. */
  function Visit(r: Request, view: nat, sized: bool): Request {
    if sized then CountDown(r) else r.(observers := r.observers + {view})
  }

  /** The waiting runnable's loop over the first `k` views. */
  function VisitViews(r: Request, sizedViews: set<nat>, k: nat): (s: Request)
    ensures s.posted == r.posted && s.viewCount == r.viewCount && r.observers <= s.observers
  {
    if k == 0 then r else Visit(VisitViews(r, sizedViews, k - 1), k - 1, k - 1 in sizedViews)
  }

  /** The handler delivers the waiting runnable, if it is still queued. */
  function RunWaiting(r: Request, sizedViews: set<nat>): (s: Request)
    ensures !s.posted && s.viewCount == r.viewCount
    ensures !r.posted ==> s == r
    ensures r.observers <= s.observers
  {
    if !r.posted then r else VisitViews(r.(posted := false), sizedViews, r.viewCount)
  }

  /** A pre-draw pass of `view`: its observer, if registered, removes itself and counts down. */
  function PreDraw(r: Request, view: nat): (s: Request)
    ensures view !in s.observers && s.observers == r.observers - {view}
    ensures view !in r.observers ==> s == r
    ensures view in r.observers ==> s.waitCount == r.waitCount - 1
    ensures s.posted == r.posted && s.viewCount == r.viewCount
  {
    if view in r.observers then CountDown(r.(observers := r.observers - {view})) else r
  }

  /** cancel: unqueue the waiting runnable and drop the continuation; registered observers stay. */
  function Cancel(r: Request): (s: Request)
    ensures !s.armed && !s.posted
    ensures s.waitCount == r.waitCount && s.observers == r.observers && s.runs == r.runs && s.viewCount == r.viewCount
  {
    r.(posted := false, armed := false)
  }

  function Step(r: Request, e: Event): Request {
    match e
    case Delivered(sizedViews) => RunWaiting(r, sizedViews)
    case Drawn(view) => PreDraw(r, view)
    case Cancelled => Cancel(r)
  }

  function Run(r: Request, trace: seq<Event>): Request
    decreases |trace|
  {
    if trace == [] then r else Run(Step(r, trace[0]), trace[1..])
  }

  /** The draws of the given views, in order. */
  function Draws(views: seq<nat>): seq<Event>
    decreases |views|
  {
    if views == [] then [] else [Drawn(views[0])] + Draws(views[1..])
  }

  /** How many of the first `k` views already have a size. */
  function CountSized(sizedViews: set<nat>, k: nat): (c: nat)
    ensures c <= k
  {
    if k == 0 then 0 else CountSized(sizedViews, k - 1) + (if k - 1 in sizedViews then 1 else 0)
  }

  /** Which of the first `k` views have no size yet. */
  function Unsized(sizedViews: set<nat>, k: nat): (u: set<nat>)
    ensures forall i: nat :: i in u <==> i < k && i !in sizedViews
  {
    if k == 0 then {} else Unsized(sizedViews, k - 1) + (if k - 1 in sizedViews then {} else {k - 1})
  }

  lemma {:induction false} UnsizedCard(sizedViews: set<nat>, k: nat)
    ensures |Unsized(sizedViews, k)| == k - CountSized(sizedViews, k)
  {
    if k > 0 {
      UnsizedCard(sizedViews, k - 1);
      assert k - 1 !in Unsized(sizedViews, k - 1);
    }
  }

  /**
   * What the request looks like in the middle of the waiting runnable: the
   * unsized views seen so far are observed, the sized ones are counted down,
   * and the continuation has run only if the count has reached zero.
   */
  lemma {:induction false} VisitViewsState(r: Request, sizedViews: set<nat>, k: nat)
    requires r.armed && !r.posted && r.runs == 0 && r.observers == {} && r.waitCount == r.viewCount
    requires 1 <= r.viewCount && k <= r.viewCount
    ensures var v := VisitViews(r, sizedViews, k);
            v.viewCount == r.viewCount && !v.posted &&
            v.observers == Unsized(sizedViews, k) &&
            v.waitCount == r.viewCount - CountSized(sizedViews, k) &&
            (v.armed <==> v.waitCount != 0) &&
            v.runs == (if v.armed then 0 else 1)
  {
    if k > 0 {
      VisitViewsState(r, sizedViews, k - 1);
    }
  }

  /**
   * The invariant of a started request: the continuation runs at most once;
   * while it is set the count equals the views still to be heard from, and it
   * is positive once the runnable has run over at least one view.
   */
  ghost predicate Inv(r: Request) {
    r.runs <= 1 &&
    (r.armed ==> r.runs == 0) &&
    (r.posted ==> r.armed) &&
    (forall i :: i in r.observers ==> i < r.viewCount) &&
    (r.armed && r.posted ==> r.observers == {} && r.waitCount == r.viewCount) &&
    (r.armed && !r.posted ==> r.waitCount == |r.observers| && (r.viewCount >= 1 ==> r.waitCount >= 1))
  }

  lemma StartedInv(viewCount: nat)
    ensures Inv(Start(Created(viewCount)))
  {
  }

  lemma StepKeepsInv(r: Request, e: Event)
    requires Inv(r)
    ensures Inv(Step(r, e))
  {
    match e
    case Delivered(sizedViews) =>
      if r.posted && r.viewCount >= 1 {
        VisitViewsState(r.(posted := false), sizedViews, r.viewCount);
        UnsizedCard(sizedViews, r.viewCount);
      }
    case Drawn(view) =>
      if view in r.observers && r.armed {
        assert |r.observers - {view}| == |r.observers| - 1;
      }
    case Cancelled =>
  }

  lemma {:induction false} RunKeepsInv(r: Request, trace: seq<Event>)
    requires Inv(r)
    ensures Inv(Run(r, trace))
    decreases |trace|
  {
    if trace != [] {
      StepKeepsInv(r, trace[0]);
      RunKeepsInv(Step(r, trace[0]), trace[1..]);
    }
  }

  /** Whatever happens after start, the continuation runs at most once. */
  lemma AtMostOnce(viewCount: nat, trace: seq<Event>)
    ensures Run(Start(Created(viewCount)), trace).runs <= 1
  {
    StartedInv(viewCount);
    RunKeepsInv(Start(Created(viewCount)), trace);
  }

  /** After cancel, nothing that happens runs the continuation. */
  lemma {:induction false} NeverAfterCancel(r: Request, trace: seq<Event>)
    ensures Run(Cancel(r), trace).runs == r.runs
    ensures !Run(Cancel(r), trace).armed
    decreases |trace|
  {
    if trace != [] {
      var s := Step(Cancel(r), trace[0]);
      assert !s.armed && !s.posted && s.runs == r.runs;
      assert Cancel(s) == s;
      NeverAfterCancel(s, trace[1..]);
    }
  }

  /** Once every observed view has drawn (in any order, repeats allowed), a live request has run its continuation. */
  lemma {:induction false} DrawsFire(r: Request, views: seq<nat>)
    requires Inv(r) && !r.posted && r.viewCount >= 1
    requires r.armed || r.runs == 1
    requires forall i :: i in r.observers ==> i in views
    ensures Run(r, Draws(views)).runs == 1
    decreases |views|
  {
    if views == [] {
      assert r.observers == {};
    } else {
      var s := PreDraw(r, views[0]);
      StepKeepsInv(r, Drawn(views[0]));
      assert Draws(views)[0] == Drawn(views[0]) && Draws(views)[1..] == Draws(views[1..]);
      DrawsFire(s, views[1..]);
    }
  }

  /**
   * A request over at least one view, started, delivered and followed by a
   * draw of every view that had no size, has run its continuation exactly once.
   */
  lemma ExactlyOnce(viewCount: nat, sizedViews: set<nat>, views: seq<nat>)
    requires viewCount >= 1
    requires forall i :: i in Unsized(sizedViews, viewCount) ==> i in views
    ensures Run(Start(Created(viewCount)), [Delivered(sizedViews)] + Draws(views)).runs == 1
  {
    var r := Start(Created(viewCount));
    var trace := [Delivered(sizedViews)] + Draws(views);
    StartedInv(viewCount);
    StepKeepsInv(r, Delivered(sizedViews));
    VisitViewsState(r.(posted := false), sizedViews, viewCount);
    assert trace[0] == Delivered(sizedViews) && trace[1..] == Draws(views);
    DrawsFire(Step(r, Delivered(sizedViews)), views);
  }
}
