/**
 * Orientation-lock bookkeeping: which forced orientations the host activity
 * permits, locking to an orientation while remembering the one to restore,
 * and undoing the lock.
 */
module Orientation {
  import opened Wrappers

  /** ActivityInfo.SCREEN_ORIENTATION_* values. */
  const SCREEN_ORIENTATION_UNSPECIFIED: int := -1
  const SCREEN_ORIENTATION_LANDSCAPE: int := 0
  const SCREEN_ORIENTATION_PORTRAIT: int := 1

  /** ActivityInfo.CONFIG_* flags of the configChanges bitmask. */
  const CONFIG_ORIENTATION: bv32 := 0x0080
  const CONFIG_SCREEN_SIZE: bv32 := 0x0400

  /** The forceOrientation orientation property; NoForce is the protocol's "none". */
  datatype MraidOrientation = Portrait | Landscape | NoForce

  /** The activity orientation each MRAID orientation stands for. */
  function ActivityInfoOrientation(o: MraidOrientation): (r: int)
    ensures r == SCREEN_ORIENTATION_UNSPECIFIED <==> o == NoForce
    ensures r == SCREEN_ORIENTATION_PORTRAIT <==> o == Portrait
    ensures r == SCREEN_ORIENTATION_LANDSCAPE <==> o == Landscape
  {
    match o
    case Portrait => SCREEN_ORIENTATION_PORTRAIT
    case Landscape => SCREEN_ORIENTATION_LANDSCAPE
    case NoForce => SCREEN_ORIENTATION_UNSPECIFIED
  }

  /** What the manifest declares for the activity: its fixed orientation and the configChanges it handles itself. */
  datatype ActivityInfo = ActivityInfo(screenOrientation: int, configChanges: bv32)

  /**
   * The host activity: its requested orientation, the screen orientation the
   * device is in now, and its manifest entry (None when the package manager
   * cannot find it).
   */
  datatype Activity = Activity(requestedOrientation: int, currentOrientation: int, info: Option<ActivityInfo>)

  /** Utils.bitMaskContainsFlag. */
  predicate BitMaskContainsFlag(bitMask: bv32, flag: bv32) {
    bitMask & flag != 0
  }

  /** The activity handles both orientation and screen-size changes itself. */
  predicate HandlesConfigChanges(configChanges: bv32) {
    BitMaskContainsFlag(configChanges, CONFIG_ORIENTATION) && BitMaskContainsFlag(configChanges, CONFIG_SCREEN_SIZE)
  }

  /** Both flags are in the mask exactly when masking with their union gives the union back. */
  lemma HandlesConfigChangesMask(configChanges: bv32)
    ensures HandlesConfigChanges(configChanges) <==>
              configChanges & (CONFIG_ORIENTATION | CONFIG_SCREEN_SIZE) == CONFIG_ORIENTATION | CONFIG_SCREEN_SIZE
  {
  }

  /** Whether the activity can be locked to `o` without being torn down and recreated. */
  function ShouldAllowForceOrientation(activity: Option<Activity>, o: MraidOrientation): (allowed: bool)
    ensures o == NoForce ==> allowed
    ensures o != NoForce && (activity.None? || activity.value.info.None?) ==> !allowed
    // a manifest orientation permits exactly itself
    ensures o != NoForce && activity.Some? && activity.value.info.Some? &&
            activity.value.info.value.screenOrientation != SCREEN_ORIENTATION_UNSPECIFIED ==>
              (allowed <==> activity.value.info.value.screenOrientation == ActivityInfoOrientation(o))
    // otherwise the activity must handle both orientation and screen-size changes itself
    ensures o != NoForce && activity.Some? && activity.value.info.Some? &&
            activity.value.info.value.screenOrientation == SCREEN_ORIENTATION_UNSPECIFIED ==>
              (allowed <==> HandlesConfigChanges(activity.value.info.value.configChanges))
  {
    if o == NoForce then true
    else if activity.None? then false
    else if activity.value.info.None? then false
    else
      var info := activity.value.info.value;
      if info.screenOrientation != SCREEN_ORIENTATION_UNSPECIFIED then
        info.screenOrientation == ActivityInfoOrientation(o)
      else
        HandlesConfigChanges(info.configChanges)
  }

  /**
   * An activity whose manifest fixes an orientation permits at most one forced
   * orientation; one that handles its own configuration changes permits both.
   */
  lemma ForcedOrientationsAllowed(activity: Activity)
    requires activity.info.Some?
    ensures activity.info.value.screenOrientation != SCREEN_ORIENTATION_UNSPECIFIED ==>
              !(ShouldAllowForceOrientation(Some(activity), Portrait) &&
                ShouldAllowForceOrientation(Some(activity), Landscape))
    ensures activity.info.value.screenOrientation == SCREEN_ORIENTATION_UNSPECIFIED ==>
              (ShouldAllowForceOrientation(Some(activity), Portrait) <==>
               ShouldAllowForceOrientation(Some(activity), Landscape))
  {
  }

  /** Errors the orientation commands report. */
  datatype OrientationError =
    | UnsupportedLock(force: MraidOrientation)   // lockOrientation: no activity, or force not allowed
    | NoActivityForNone                          // applyOrientation with NONE and changes disallowed
    | UnableToForce(force: MraidOrientation)     // setOrientationProperties refused

  /**
   * The controller's orientation fields: the weakly held activity, the
   * orientation saved before the first lock, and the orientation properties.
   */
  datatype OrientationLock = OrientationLock(
    activity: Option<Activity>,
    original: Option<int>,
    allowOrientationChange: bool,
    forceOrientation: MraidOrientation)

  /**
   * lockOrientation: refuse when there is no activity or the current force
   * orientation is not allowed; otherwise remember the activity's requested
   * orientation if nothing is remembered yet, and request `screenOrientation`.
   */
  function LockOrientation(s: OrientationLock, screenOrientation: int): (r: Result<OrientationLock, OrientationError>)
    ensures r.Failure? <==> s.activity.None? || !ShouldAllowForceOrientation(s.activity, s.forceOrientation)
    ensures r.Failure? ==> r.error == UnsupportedLock(s.forceOrientation)
    ensures r.Success? ==>
              r.value.activity == Some(s.activity.value.(requestedOrientation := screenOrientation)) &&
              r.value.original == Some(if s.original.Some? then s.original.value else s.activity.value.requestedOrientation) &&
              r.value.allowOrientationChange == s.allowOrientationChange &&
              r.value.forceOrientation == s.forceOrientation
  {
    if s.activity.None? || !ShouldAllowForceOrientation(s.activity, s.forceOrientation) then
      Failure(UnsupportedLock(s.forceOrientation))
    else
      var activity := s.activity.value;
      var original := if s.original.None? then Some(activity.requestedOrientation) else s.original;
      Success(s.(original := original, activity := Some(activity.(requestedOrientation := screenOrientation))))
  }

  /** unApplyOrientation: restore the saved orientation when there is an activity, and forget it in any case. */
  function UnApplyOrientation(s: OrientationLock): (r: OrientationLock)
    ensures r.original.None?
    ensures r.activity.Some? <==> s.activity.Some?
    ensures r.activity.Some? ==>
              r.activity.value == s.activity.value.(requestedOrientation :=
                                    if s.original.Some? then s.original.value else s.activity.value.requestedOrientation)
    ensures r.allowOrientationChange == s.allowOrientationChange && r.forceOrientation == s.forceOrientation
  {
    var activity :=
      if s.activity.Some? && s.original.Some? then Some(s.activity.value.(requestedOrientation := s.original.value))
      else s.activity;
    s.(activity := activity, original := None)
  }

  /**
   * applyOrientation: with NONE, drop any lock when changes are allowed, and
   * otherwise lock to the orientation the device is in; with a concrete
   * orientation, lock to it.
   */
  function ApplyOrientation(s: OrientationLock): (r: Result<OrientationLock, OrientationError>)
    ensures s.forceOrientation == NoForce && s.allowOrientationChange ==> r == Success(UnApplyOrientation(s))
    ensures s.forceOrientation == NoForce && !s.allowOrientationChange && s.activity.None? ==> r == Failure(NoActivityForNone)
    ensures s.forceOrientation == NoForce && !s.allowOrientationChange && s.activity.Some? ==>
              r == LockOrientation(s, s.activity.value.currentOrientation)
    ensures s.forceOrientation != NoForce ==> r == LockOrientation(s, ActivityInfoOrientation(s.forceOrientation))
    // a failed application changes nothing, and a successful one keeps the orientation properties
    ensures r.Success? ==> r.value.allowOrientationChange == s.allowOrientationChange && r.value.forceOrientation == s.forceOrientation
  {
    if s.forceOrientation == NoForce then
      if s.allowOrientationChange then Success(UnApplyOrientation(s))
      else if s.activity.None? then Failure(NoActivityForNone)
      else LockOrientation(s, s.activity.value.currentOrientation)
    else
      LockOrientation(s, ActivityInfoOrientation(s.forceOrientation))
  }

  /**
   * handleSetOrientationProperties: refuse an orientation the activity does not
   * allow, leaving everything unchanged; otherwise store the properties and,
   * when `applyNow` holds (the ad is expanded, or a showing interstitial),
   * apply them. A failure to apply is reported after the properties are stored.
   */
  function SetOrientationProperties(s: OrientationLock, allowOrientationChange: bool, force: MraidOrientation, applyNow: bool)
    : (r: (OrientationLock, Outcome<OrientationError>))
    ensures !ShouldAllowForceOrientation(s.activity, force) ==> r == (s, Fail(UnableToForce(force)))
    ensures ShouldAllowForceOrientation(s.activity, force) ==>
              r.0.allowOrientationChange == allowOrientationChange && r.0.forceOrientation == force
    ensures !applyNow && ShouldAllowForceOrientation(s.activity, force) ==>
              r == (s.(allowOrientationChange := allowOrientationChange, forceOrientation := force), Pass)
  {
    if !ShouldAllowForceOrientation(s.activity, force) then
      (s, Fail(UnableToForce(force)))
    else
      var stored := s.(allowOrientationChange := allowOrientationChange, forceOrientation := force);
      if !applyNow then (stored, Pass)
      else match ApplyOrientation(stored)
        case Success(t) => (t, Pass)
        case Failure(e) => (stored, Fail(e))
  }

  /** Locking twice keeps the orientation saved by the first lock. */
  lemma RepeatedLockKeepsFirstOriginal(s: OrientationLock, first: int, second: int)
    requires LockOrientation(s, first).Success?
    ensures LockOrientation(LockOrientation(s, first).value, second).Success?
    ensures LockOrientation(LockOrientation(s, first).value, second).value.original ==
            LockOrientation(s, first).value.original
  {
    var t := LockOrientation(s, first).value;
    assert t.activity.Some? && t.forceOrientation == s.forceOrientation;
    assert t.activity.value.info == s.activity.value.info;
    assert ShouldAllowForceOrientation(t.activity, t.forceOrientation) == ShouldAllowForceOrientation(s.activity, s.forceOrientation);
  }

  /** Unlocking is idempotent: a second unApplyOrientation changes nothing. */
  lemma UnApplyIdempotent(s: OrientationLock)
    ensures UnApplyOrientation(UnApplyOrientation(s)) == UnApplyOrientation(s)
  {
  }

  /**
   * Any number of locks followed by one unlock gives the activity back the
   * orientation it requested before the first lock.
   */
  lemma LocksThenUnApplyRestore(s: OrientationLock, first: int, second: int)
    requires s.original.None? && LockOrientation(s, first).Success?
    ensures UnApplyOrientation(LockOrientation(s, first).value) == s
    ensures LockOrientation(LockOrientation(s, first).value, second).Success?
    ensures UnApplyOrientation(LockOrientation(LockOrientation(s, first).value, second).value) == s
  {
    RepeatedLockKeepsFirstOriginal(s, first, second);
  }

  /** Once the properties are accepted a concrete forced orientation always applies. */
  lemma AcceptedForceAlwaysApplies(s: OrientationLock, allowOrientationChange: bool, force: MraidOrientation)
    requires force != NoForce && ShouldAllowForceOrientation(s.activity, force)
    ensures SetOrientationProperties(s, allowOrientationChange, force, true).1 == Pass
    ensures SetOrientationProperties(s, allowOrientationChange, force, true).0.activity ==
              Some(s.activity.value.(requestedOrientation := ActivityInfoOrientation(force)))
  {
  }

  /**
   * The only way handleSetOrientationProperties fails after storing the new
   * properties: NONE with changes disallowed while no activity is reachable.
   */
  lemma SetOrientationPropertiesPartialFailure(s: OrientationLock, allowOrientationChange: bool, force: MraidOrientation, applyNow: bool)
    requires ShouldAllowForceOrientation(s.activity, force)
    ensures SetOrientationProperties(s, allowOrientationChange, force, applyNow).1.Fail? <==>
              applyNow && force == NoForce && !allowOrientationChange && s.activity.None?
  {
  }
}
