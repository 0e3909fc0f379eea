/**
  The messages exchanged by the path controller: the navigate_to_goal action
  (goal, result, feedback), the follow_path action (goal, result, feedback)
  and the planner's path. Only the fields the controller reads or writes are
  kept; poses are opaque.
 */
module PathMessages {

  /** A ros::Time stamp; 0 is ros::Time(0), the value `isZero()` tests for. */
  type Stamp = nat

  /** A goal pose with its header stamp; the pose itself is opaque. */
  datatype StampedPose = StampedPose(stamp: Stamp, target: int)

  /** A planned path: header stamp and ordered poses. */
  datatype Path = Path(stamp: Stamp, poses: seq<int>)

  /** NavigateToGoalGoal.failure_mode: the two named modes or any other code. */
  datatype FailureMode = FailureAbort | FailureReplan | FailureUnknown(code: int)

  datatype NavGoal = NavGoal(goalPose: StampedPose, velocity: real, failureMode: FailureMode, debugTest: int)

  datatype FollowGoal = FollowGoal(debugTest: int, path: Path, velocity: real)

  /** FollowPathResult.status: the four codes the controller names, and the rest. */
  datatype MotionStatus = MotionSuccess | MotionCollision | MotionPathLost | MotionTimeout | MotionOther(code: int)

  datatype FollowResult = FollowResult(status: MotionStatus, debugTest: int)

  /** FollowPathFeedback.status: the two codes the controller names, and the rest. */
  datatype FeedbackMotion = FeedbackMoving | FeedbackCollision | FeedbackOther(code: int)

  datatype FollowFeedback = FollowFeedback(status: FeedbackMotion, debugTest: int)

  /** actionlib::SimpleClientGoalState values. */
  datatype GoalState = Pending | Active | Recalled | Rejected | Preempted | Aborted | Succeeded | Lost

  /** NavigateToGoalResult.status. */
  datatype NavStatus = StatusSuccess | StatusNoPathFound | StatusCollision | StatusLostPath | StatusTimeout | StatusOtherError

  datatype NavResult = NavResult(reachedGoal: bool, status: NavStatus, debugTest: int)

  /**
    NavigateToGoalFeedback.status. `FeedbackUnset` is a feedback message whose
    status field was never assigned and keeps the message's default value.
   */
  datatype NavFeedbackStatus = FeedbackStatusMoving | FeedbackStatusCollision | FeedbackPathReady | FeedbackReplan | FeedbackUnset

  datatype NavFeedback = NavFeedback(status: NavFeedbackStatus, debugTest: int)
}
