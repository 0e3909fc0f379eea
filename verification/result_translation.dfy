/**
  The two enum-to-enum tables of the path controller: how a follow_path
  result and final state become the navigate_to_goal result and terminal
  call (handleFollowPathResult), and how follow_path feedback becomes
  navigate_to_goal feedback (followPathFeedbackCB).
 */
module ResultTranslation {
  import opened Wrappers
  import opened PathMessages
  import opened ActionServer

  /** The motion statuses the result table names individually. */
  predicate IsNamedFailure(m: MotionStatus) {
    m == MotionCollision || m == MotionPathLost || m == MotionTimeout
  }

  /** The navigate_to_goal result built from a follow_path result. */
  function NavResultOf(r: FollowResult): (nav: NavResult)
    ensures nav.reachedGoal <==> r.status == MotionSuccess
    ensures nav.reachedGoal <==> nav.status == StatusSuccess
    ensures nav.debugTest == r.debugTest
    ensures nav.status == StatusOtherError <==> r.status != MotionSuccess && !IsNamedFailure(r.status)
    ensures nav.status != StatusNoPathFound
  {
    var reached := r.status == MotionSuccess;
    var status :=
      if reached then StatusSuccess
      else match r.status
        case MotionCollision => StatusCollision
        case MotionPathLost => StatusLostPath
        case MotionTimeout => StatusTimeout
        case _ => StatusOtherError;
    NavResult(reached, status, r.debugTest)
  }

  /** The motion status a named navigate_to_goal failure status came from. */
  function MotionOf(s: NavStatus): Option<MotionStatus> {
    match s
    case StatusSuccess => Some(MotionSuccess)
    case StatusCollision => Some(MotionCollision)
    case StatusLostPath => Some(MotionPathLost)
    case StatusTimeout => Some(MotionTimeout)
    case _ => None
  }

  /**
    The result table loses nothing about the named statuses: reading the
    motion status back from the result status recovers it, and every other
    motion status collapses to OTHER_ERROR.
   */
  lemma NavStatusRecoversNamedMotion(r: FollowResult)
    ensures r.status == MotionSuccess || IsNamedFailure(r.status) ==> MotionOf(NavResultOf(r).status) == Some(r.status)
    ensures !(r.status == MotionSuccess || IsNamedFailure(r.status)) ==> MotionOf(NavResultOf(r).status).None?
  {
  }

  /**
    The terminal call for a follow_path final state: only SUCCEEDED ends the
    goal with setSucceeded; REJECTED, RECALLED, ABORTED, PREEMPTED, every other
    state and an unset state all end it with setAborted.
   */
  function TerminalFor(finalState: Option<GoalState>, nav: NavResult): (e: Effect)
    ensures IsTerminal(e) && !e.SetPreempted?
    ensures e.SetSucceeded? <==> finalState == Some(Succeeded)
    ensures e.result == nav
  {
    match finalState
    case Some(Succeeded) => SetSucceeded(nav)
    case _ => SetAborted(nav)
  }

  /**
    followPathFeedbackCB: MOVING and COLLISION are translated; any other code
    leaves the status field unassigned, and the message is published anyway.
   */
  function FeedbackOf(fb: FollowFeedback): (nav: NavFeedback)
    ensures nav.debugTest == fb.debugTest
    ensures nav.status == FeedbackStatusMoving <==> fb.status == FeedbackMoving
    ensures nav.status == FeedbackStatusCollision <==> fb.status == FeedbackCollision
    ensures nav.status == FeedbackUnset <==> fb.status.FeedbackOther?
    ensures nav.status != FeedbackPathReady && nav.status != FeedbackReplan
  {
    match fb.status
    case FeedbackMoving => NavFeedback(FeedbackStatusMoving, fb.debugTest)
    case FeedbackCollision => NavFeedback(FeedbackStatusCollision, fb.debugTest)
    case FeedbackOther(_) => NavFeedback(FeedbackUnset, fb.debugTest)
  }
}
