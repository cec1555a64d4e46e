/**
 * The MRAID view states, the placement types and the mapping from a view-state
 * change to the single MraidListener callback it triggers.
 */
module ViewStates {
  import opened Wrappers

  /** The presentation the ad is in; LOADING is the initial state. */
  datatype ViewState = Loading | Default | Resized | Expanded | Hidden

  /** Whether the ad is shown inline in content or as a full-screen interstitial. */
  datatype PlacementType = Inline | Interstitial

  /** The MraidListener callbacks the controller can fire. */
  datatype ListenerEvent =
    | OnLoaded
    | OnFailedToLoad
    | OnExpand
    | OnClose
    | OnResize(toOriginalSize: bool)

  /**
   * The callback fired for a change from `previous` to `current`: the first
   * matching rule wins and at most one callback fires.
   */
  function ListenerCallback(previous: ViewState, current: ViewState): (r: Option<ListenerEvent>)
    // each callback fires for exactly the pairs that the ordered rules assign to it
    ensures r == Some(OnExpand) <==> current == Expanded
    ensures r == Some(OnClose) <==> current == Hidden || (previous == Expanded && current == Default)
    ensures r == Some(OnResize(true)) <==> previous == Resized && current == Default
    ensures r == Some(OnResize(false)) <==> current == Resized
    ensures r.None? <==> current == Loading || (current == Default && previous != Expanded && previous != Resized)
    ensures r != Some(OnLoaded) && r != Some(OnFailedToLoad)
  {
    if current == Expanded then Some(OnExpand)
    else if previous == Expanded && current == Default then Some(OnClose)
    else if current == Hidden then Some(OnClose)
    else if previous == Resized && current == Default then Some(OnResize(true))
    else if current == Resized then Some(OnResize(false))
    else assert current.Loading? || current.Default?; None
  }

  /** The callback as a list of zero or one events, for appending to an event log. */
  function CallbackList(previous: ViewState, current: ViewState): (r: seq<ListenerEvent>)
    ensures |r| <= 1
    ensures |r| == 1 <==> ListenerCallback(previous, current).Some?
    ensures |r| == 1 ==> r[0] == ListenerCallback(previous, current).value
  {
    match ListenerCallback(previous, current)
    case None => []
    case Some(e) => [e]
  }

  /**
   * The edges of the view-state machine: LOADING -> DEFAULT, DEFAULT -> RESIZED,
   * EXPANDED or HIDDEN, RESIZED -> DEFAULT, RESIZED or EXPANDED, EXPANDED -> DEFAULT.
   */
  predicate LegalTransition(previous: ViewState, current: ViewState) {
    match previous
    case Loading => current == Default
    case Default => current == Resized || current == Expanded || current == Hidden
    case Resized => current == Default || current == Resized || current == Expanded
    case Expanded => current == Default
    case Hidden => false
  }

  /**
   * Along every edge of the state machine except the initial LOADING -> DEFAULT
   * exactly one callback fires, and it tells the listener where the ad went.
   */
  lemma EdgeCallbacks(previous: ViewState, current: ViewState)
    requires LegalTransition(previous, current)
    ensures previous == Loading <==> ListenerCallback(previous, current).None?
    ensures current == Default && previous != Loading ==>
              ListenerCallback(previous, current) == Some(if previous == Expanded then OnClose else OnResize(true))
  {
  }
}
