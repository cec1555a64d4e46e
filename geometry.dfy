/**
 * Integer rectangle arithmetic behind the MRAID resize command: the target
 * rectangle, the on-screen clamp, the close-region containment checks and the
 * numbers a rejection message reports.
 */
module Geometry {
  import opened Wrappers

  /** An axis-aligned rectangle in pixels, with android.graphics.Rect's edge convention. */
  datatype Rect = Rect(left: int, top: int, right: int, bottom: int) {

    function Width(): int { right - left }

    function Height(): int { bottom - top }

    predicate IsEmpty() { left >= right || top >= bottom }

    /** Rect.contains(Rect): an empty rectangle contains nothing, not even itself. */
    predicate Contains(r: Rect) {
      !IsEmpty() && left <= r.left && top <= r.top && right >= r.right && bottom >= r.bottom
    }

    /** Rect.offsetTo: moves the rectangle so that its top-left corner is at (newLeft, newTop). */
    function OffsetTo(newLeft: int, newTop: int): (r: Rect)
      ensures r.left == newLeft && r.top == newTop
      ensures r.Width() == Width() && r.Height() == Height()
    {
      Rect(newLeft, newTop, right + newLeft - left, bottom + newTop - top)
    }
  }

  /** Edge-inclusive containment without the emptiness test of Contains. */
  predicate Within(inner: Rect, outer: Rect) {
    outer.left <= inner.left && outer.top <= inner.top && inner.right <= outer.right && inner.bottom <= outer.bottom
  }

  /** Where the creative asks the close region of a resized ad to sit. */
  datatype ClosePosition = TopLeft | TopCenter | TopRight | Center | BottomLeft | BottomCenter | BottomRight

  /** The rectangles the controller last measured: the root view in pixels and in dips, and the default ad container. */
  datatype ScreenMetrics = ScreenMetrics(rootRect: Rect, rootRectDips: Rect, defaultAdRect: Rect)

  /** The arguments of the MRAID resize command, in density-independent pixels. */
  datatype ResizeProperties = ResizeProperties(
    widthDips: int, heightDips: int, offsetXDips: int, offsetYDips: int,
    closePosition: ClosePosition, allowOffscreen: bool)

  /**
   * The collaborators whose code is not part of this model: the dip to pixel
   * conversion (a float density) and the close-region placement of the closeable layout.
   */
  datatype Env = Env(dipsToPx: int -> int, closeRegion: (ClosePosition, Rect) -> Rect)

  /** Why a resize was refused. */
  datatype ResizeFailure = ExceedsRoot | CloseRegionOffRoot | CloseRegionOutsideAd

  /** Math.max(min, Math.min(target, max)). */
  function ClampInt(low: int, target: int, high: int): (r: int)
    ensures low <= high ==> low <= r <= high
    ensures low <= target <= high ==> r == target
    ensures target < low || high < low ==> r == low
    ensures low <= high < target ==> r == high
  {
    var upper := if target < high then target else high;
    if low < upper then upper else low
  }

  /** The requested rectangle: the default ad container's origin plus the offset, with the requested size. */
  function TargetRect(m: ScreenMetrics, p: ResizeProperties, env: Env): (r: Rect)
    ensures r.left == m.defaultAdRect.left + env.dipsToPx(p.offsetXDips)
    ensures r.top == m.defaultAdRect.top + env.dipsToPx(p.offsetYDips)
    ensures r.Width() == env.dipsToPx(p.widthDips) && r.Height() == env.dipsToPx(p.heightDips)
  {
    var left := m.defaultAdRect.left + env.dipsToPx(p.offsetXDips);
    var top := m.defaultAdRect.top + env.dipsToPx(p.offsetYDips);
    Rect(left, top, left + env.dipsToPx(p.widthDips), top + env.dipsToPx(p.heightDips))
  }

  /**
   * Without offscreen permission: refuse a rectangle larger than the bounds,
   * otherwise move it, keeping its size, so that its origin is clamped into the bounds.
   */
  function PlaceOnScreen(target: Rect, bounds: Rect): (r: Result<Rect, ResizeFailure>)
    ensures r.Failure? <==> target.Width() > bounds.Width() || target.Height() > bounds.Height()
    ensures r.Failure? ==> r.error == ExceedsRoot
    ensures r.Success? ==> r.value.Width() == target.Width() && r.value.Height() == target.Height()
    ensures r.Success? && target.Width() >= 0 && target.Height() >= 0 ==> Within(r.value, bounds)
    ensures Within(target, bounds) ==> r == Success(target)
  {
    if target.Width() > bounds.Width() || target.Height() > bounds.Height() then
      Failure(ExceedsRoot)
    else
      var newLeft := ClampInt(bounds.left, target.left, bounds.right - target.Width());
      var newTop := ClampInt(bounds.top, target.top, bounds.bottom - target.Height());
      Success(target.OffsetTo(newLeft, newTop))
  }

  /** The rectangle the resized ad will occupy, before the close region is checked. */
  function PlacedRect(m: ScreenMetrics, p: ResizeProperties, env: Env): Result<Rect, ResizeFailure> {
    if p.allowOffscreen then Success(TargetRect(m, p, env)) else PlaceOnScreen(TargetRect(m, p, env), m.rootRect)
  }

  /**
   * The geometry validation of handleResize: the rectangle to commit, or the
   * first check it fails. Nothing is mutated here, so a failure leaves no trace.
   */
  function CheckResize(m: ScreenMetrics, p: ResizeProperties, env: Env): (r: Result<Rect, ResizeFailure>)
    // a committed rectangle has the requested size and a close region inside both it and the root view
    ensures r.Success? ==>
              var close := env.closeRegion(p.closePosition, r.value);
              m.rootRect.Contains(close) && r.value.Contains(close) && !r.value.IsEmpty()
    ensures r.Success? ==>
              r.value.Width() == env.dipsToPx(p.widthDips) && r.value.Height() == env.dipsToPx(p.heightDips)
    // without offscreen permission the committed rectangle lies inside the root view
    ensures r.Success? && !p.allowOffscreen ==> m.rootRect.Contains(r.value)
    // it is only moved when it was not already inside the root view
    ensures r.Success? && (p.allowOffscreen || Within(TargetRect(m, p, env), m.rootRect)) ==>
              r.value == TargetRect(m, p, env)
    // the failures, in the order the checks are made
    ensures r == Failure(ExceedsRoot) <==>
              !p.allowOffscreen &&
              (env.dipsToPx(p.widthDips) > m.rootRect.Width() || env.dipsToPx(p.heightDips) > m.rootRect.Height())
    ensures r == Failure(CloseRegionOffRoot) <==>
              PlacedRect(m, p, env).Success? &&
              !m.rootRect.Contains(env.closeRegion(p.closePosition, PlacedRect(m, p, env).value))
    ensures r == Failure(CloseRegionOutsideAd) <==>
              PlacedRect(m, p, env).Success? &&
              var placed := PlacedRect(m, p, env).value;
              var close := env.closeRegion(p.closePosition, placed);
              m.rootRect.Contains(close) && !placed.Contains(close)
  {
    match PlacedRect(m, p, env)
    case Failure(f) => Failure(f)
    case Success(rect) =>
      var close := env.closeRegion(p.closePosition, rect);
      if !m.rootRect.Contains(close) then Failure(CloseRegionOffRoot)
      else if !rect.Contains(close) then Failure(CloseRegionOutsideAd)
      else Success(rect)
  }

  /** A width and a height. */
  datatype Size = Size(width: int, height: int)

  /** The numbers a resize rejection message reports: the requested size and offset, and the largest size allowed. */
  datatype ResizeMessage = ResizeMessage(width: int, height: int, offsetX: int, offsetY: int, maxSize: Option<Size>)

  /**
   * The message numbers as the source builds them: the close-region-outside-ad
   * message reports the height converted to pixels next to a width in dips.
   */
  function RejectionMessageAsWritten(p: ResizeProperties, f: ResizeFailure, m: ScreenMetrics, env: Env): (msg: ResizeMessage)
    ensures msg.width == p.widthDips && msg.offsetX == p.offsetXDips && msg.offsetY == p.offsetYDips
    ensures msg.height == if f == CloseRegionOutsideAd then env.dipsToPx(p.heightDips) else p.heightDips
    ensures msg.maxSize.Some? <==> f != CloseRegionOutsideAd
  {
    match f
    case ExceedsRoot | CloseRegionOffRoot =>
      ResizeMessage(p.widthDips, p.heightDips, p.offsetXDips, p.offsetYDips,
                    Some(Size(m.rootRectDips.Width(), m.rootRectDips.Height())))
    case CloseRegionOutsideAd =>
      ResizeMessage(p.widthDips, env.dipsToPx(p.heightDips), p.offsetXDips, p.offsetYDips, None)
  }

  /** The message numbers as intended: every message echoes the request in the units the creative used. */
  function RejectionMessage(p: ResizeProperties, f: ResizeFailure, m: ScreenMetrics): (msg: ResizeMessage)
    ensures msg.width == p.widthDips && msg.height == p.heightDips
    ensures msg.offsetX == p.offsetXDips && msg.offsetY == p.offsetYDips
    ensures msg.maxSize.Some? <==> f != CloseRegionOutsideAd
    ensures msg.maxSize.Some? ==> msg.maxSize.value == Size(m.rootRectDips.Width(), m.rootRectDips.Height())
  {
    ResizeMessage(p.widthDips, p.heightDips, p.offsetXDips, p.offsetYDips,
                  if f == CloseRegionOutsideAd then None
                  else Some(Size(m.rootRectDips.Width(), m.rootRectDips.Height())))
  }

  /** The source's messages agree with the intended ones except for the height of the last one. */
  lemma RejectionMessageAsWrittenDiffers(p: ResizeProperties, f: ResizeFailure, m: ScreenMetrics, env: Env)
    ensures RejectionMessageAsWritten(p, f, m, env) == RejectionMessage(p, f, m) <==>
              f != CloseRegionOutsideAd || env.dipsToPx(p.heightDips) == p.heightDips
  {
  }

  /** At density 2 a 50-dip-high request is reported as 100 high. */
  lemma RejectionMessageAsWrittenAtDensityTwo()
    ensures
      var p := ResizeProperties(300, 50, 0, 0, TopRight, false);
      var m := ScreenMetrics(Rect(0, 0, 1080, 1920), Rect(0, 0, 540, 960), Rect(0, 0, 1080, 1920));
      var env := Env(x => 2 * x, (pos, r) => r);
      RejectionMessageAsWritten(p, CloseRegionOutsideAd, m, env).height == 100 &&
      RejectionMessage(p, CloseRegionOutsideAd, m).height == 50
  {
  }
}
