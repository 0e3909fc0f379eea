# Path controller and scan2cloud bookkeeping, in Dafny

This project models two parts of a ROS navigation stack.

**The path controller** (`path_control`). It serves the `navigate_to_goal` action:
- publishes the goal pose to a planner;
- waits for a path that carries the goal's stamp;
- checks the path;
- sends it to the `follow_path` action;
- waits for the follower or for a preempt;
- ends the goal with a result that it translates from the follower's.

Under the Replan failure mode it plans again after every unsuccessful run. Paths that nobody asked for are followed fire-and-forget, but only while no goal is active.

The model has these parts:
- `Controller` is an immutable record of the controller's fields, the action server's flags and an ordered trace of every external call (`Effect`). A `Tally` counts those calls by kind.
- The callbacks (`ControllerState.Callback`) are discrete `Event`s applied one at a time.
- Every busy-wait of the execute thread is a loop over a script of events. It stops on the event that ends the source's loop, or reports `Blocked` when the script runs out first.
- A dereference of a null shared pointer is reported as `Crashed`.

Two quirks of the source are stated as contracts:
- In Abort mode the result handler runs even after `processGoal` has ended the goal. It then calls a terminal method a second time, which actionlib rejects, or the thread reads a stale or null result (`Orchestrator.RunAbort`).
- The path-length check reads the stored path before the preempt check. The awaited path is stored only when it is what ends the plan wait. If the wait never ran, or a cancel, a new goal or shutdown interrupted it, the check reads whatever was stored before: an earlier goal's path, or none, which crashes (`Orchestrator.ProcessGoal`, `Scenarios.CancelDuringPlanWait`, `Scenarios.ShutdownWithoutPath`).
- The done flag is reset before the plan wait, not before the follow goal is sent. When the goal followed before is a supervised one whose done callback has not run, the first done callback delivered during the plan wait, at whatever position, raises the flag again, and the next follow run is then taken as complete with that old result (`Orchestrator.ProcessGoal`, `Scenarios.LateDoneCallbackCounts`). A done callback of a cancelled unexpected run raises nothing, and the new goal's own run decides (`Scenarios.UnexpectedRunCancelled`).

**scan2cloud** (`tools/scan2cloud`). This part models the bookkeeping of the scan processor:
- frame-name normalisation;
- the layout of the published PointCloud2: field offsets, steps, the data size with its uint32 wrap-around, and the packing of the points, as it comes out on a little-endian host;
- the same-frame pass-through of the cloud transform;
- the index and shape structure of the noise and segment filters.

The filters' float tests are parameters: `WeightModel` and `SegmentTests`.

Modules:
- `PathMessages`: the message types.
- `ActionServer`: effects and tallies.
- `ResultTranslation`: the two enum tables.
- `ControllerState`: the state and the callbacks.
- `Waits`: which events end each of the three busy-waits, and how one event moves the controller while a wait runs.
- `Orchestrator`: the execute thread.
- `Scenarios`: concrete event scripts and how the execute thread ends them.
- `Frames`, `PointCloud`, `CloudTransform` and `ScanFilters`: scan2cloud.

## Model

| member | source | states |
|---|---|---|
| ControllerState.Initial | path_control/src/pathcontroller.cpp:5-24 | A new controller has no outstanding plan request and no active goal. It is not following an unexpected path, has made no call, and its call counts match its (empty) trace. |
| ControllerState.PathCallback | path_control/src/pathcontroller.cpp:230-260 | With a request outstanding, only a path with the awaited stamp is stored, and storing it clears the token; any other path changes nothing. With no request outstanding and no goal active, exactly one unexpected follow goal is sent, with debug_test 255 and the configured velocity, and the unexpected flag is set. With a goal active the path is dropped. |
| ControllerState.FollowPathDoneCallback | path_control/src/pathcontroller.cpp:262-270 | After the done callback, the done flag is raised and the final state and result are the ones delivered. No call is made. |
| ControllerState.UnexpectedPathDoneCallback | path_control/src/pathcontroller.cpp:302-308 | The unexpected-path flag is cleared, and no call is made. |
| ControllerState.FeedbackCallback | path_control/src/pathcontroller.cpp:278-300 | Feedback is relayed, as exactly one message translated by `FeedbackOf`, if and only if a supervised follow goal is running. Otherwise the controller is unchanged. Nothing but the trace changes, and the action counts never do. |
| ControllerState.DoneCallback | path_control/src/pathcontroller.cpp:262-308 | A goal's done callback runs at most once. It is the callback the goal was sent with: a supervised goal stores state and result and raises the flag, and an unexpected goal clears the unexpected flag. Nothing the execute thread relies on is touched: token, path, preempt, activity and trace. A raised done flag always has a stored result. |
| ControllerState.Callback | path_control/src/pathcontroller.cpp:230-308 | No callback ends the goal. While a goal is active no callback adds an action. The token and the stored path change only when the awaited path arrives. The done flag is raised only by a done callback, only together with a result, and is never lowered. Preempt requests stick, and shutdown is final. |
| Waits.EndIndex | path_control/src/pathcontroller.cpp:310-340 | The first event of a script that ends a wait: no earlier event ends it, and the one at that position does. When there is none, the result is the script's length. |
| Waits.ExpiryEndsDoneWait | path_control/src/pathcontroller.cpp:333-340 | A deadline after the end of a wait ends the done-flag wait that follows it, whichever done callback it waits for. |
| Waits.PathWaitStep | path_control/src/pathcontroller.cpp:321-325 | During the plan wait, one event ends the wait exactly when it is the path with the awaited stamp, a cancel, a new goal or shutdown. The awaited path is stored and the token cleared. Any event that is not a path keeps the stored path and the token, and the preempt request is raised exactly by a cancel or a new goal. |
| Waits.DoneWaitStep | path_control/src/pathcontroller.cpp:262-270 | During the done-flag wait, one event raises the flag exactly when it is a done callback of a supervised goal whose callback has not run. The flag then comes with that callback's result and final state. |
| Waits.FollowWaitStep | path_control/src/pathcontroller.cpp:121-146 | During the isDone loop, one event finishes the goal or requests a preempt exactly when it ends the loop, never both. Only the goal's first done callback stores a result. |
| Waits.CallbackFlags | path_control/src/pathcontroller.cpp:230-308 | One callback moves the plan request and the flags exactly so: the awaited path fills the request and clears the token, a cancel or a new goal raises the preempt flag of an active goal, a new goal is recorded, and shutdown clears the ROS flag. |
| Waits.DeliverFlags | path_control/src/pathcontroller.cpp:230-308 | After a run of callbacks the ROS flag is up iff it was and no shutdown came, a new goal is recorded iff one was or one came, and an active goal's preempt flag is raised iff it was or a cancel or a new goal came. |
| Waits.DeliverAgrees | path_control/src/pathcontroller.cpp:230-308 | Two controllers with the same plan request, stored path and flags keep them equal through the same callbacks. |
| Waits.DeliverFilled | path_control/src/pathcontroller.cpp:253-258 | Once the plan request is filled, no later callback changes the token or the stored path. |
| Waits.ConsumedThen | path_control/src/pathcontroller.cpp:76-157 | Two parts of the execute thread, the second starting where the first left off, together consumed the events before the second one's rest. |
| ResultTranslation.NavResultOf | path_control/src/pathcontroller.cpp:165-193 | reached_goal holds iff the motion status is SUCCESS, iff the result status is SUCCESS. The result is OTHER_ERROR exactly for the unnamed motion codes. debug_test is copied, and NO_PATH_FOUND never comes out of the translation. |
| ResultTranslation.NavStatusRecoversNamedMotion | path_control/src/pathcontroller.cpp:176-192 | The table is injective on the named codes: COLLISION, PATH_LOST, TIMEOUT and SUCCESS can each be recovered from the result status. Every other code collapses to OTHER_ERROR. |
| ResultTranslation.TerminalFor | path_control/src/pathcontroller.cpp:203-227 | The handler always ends the goal, never by setPreempted. It calls setSucceeded exactly when the follower's final state is SUCCEEDED, and setAborted for every other state, PREEMPTED included. The call carries the translated result. |
| ResultTranslation.FeedbackOf | path_control/src/pathcontroller.cpp:282-299 | MOVING maps to MOVING and COLLISION maps to COLLISION, in both directions. Any other code yields a message whose status is left unset. Follower feedback is never PATH_READY or REPLAN, and debug_test is copied. |
| Orchestrator.AwaitPath | path_control/src/pathcontroller.cpp:321-325 | A wait whose condition already fails returns at once. A running wait blocks exactly when no event in the script ends it: the path with the awaited stamp, a cancel, a new goal, or shutdown. Otherwise it returns the events after the first such event. When that event is the path, the path is stored and the token cleared. When a cancel, a new goal or shutdown ends it, the stored path and the token stay as they were, and the preempt request is raised exactly for a cancel or a new goal. A path with another stamp is dropped, and no action is taken while waiting. A done callback before the end changes the done flag; without one the flag stays as it was. |
| Orchestrator.WaitForPath | path_control/src/pathcontroller.cpp:310-331 | The goal pose is published exactly once, as one plan request, after the token is set to its stamp. The wait then ends on the first event that ends it, as in AwaitPath: the awaited path is stored, an interrupted wait leaves the previously stored path and the token, and a script without an ending event blocks. A request that is not outstanding or already interrupted is not waited for. |
| Orchestrator.WaitForFollowPathDone | path_control/src/pathcontroller.cpp:333-340 | A flag already raised returns true at once. Otherwise the wait blocks exactly when the script has neither a deadline nor a done callback that raises the flag, and it ends on the first of them. It returns true exactly when that event is the done callback, whose result and final state are then stored. No action is taken. |
| Orchestrator.CancelAndPreempt | path_control/src/pathcontroller.cpp:122-135 | A preempt while following costs exactly one cancelGoal, then the bounded wait, then setPreempted. The wait ends on the deadline or on the done callback, and it blocks only on a script with neither. processGoal returns false whether or not the follower acknowledged. |
| Orchestrator.AwaitFollower | path_control/src/pathcontroller.cpp:121-146 | A finished goal passes at once, and a pending preempt goes straight to the cancel. Otherwise the loop ends on the first finish, done callback, cancel or new goal, and it blocks only on a script with none of them. A finish or a done callback leaves with the goal done and no action taken; the done callback stores its result. A cancel or a new goal costs exactly one cancel and one setPreempted. |
| Orchestrator.RunIsDoneLoop | path_control/src/pathcontroller.cpp:121-146 | The isDone loop runs event by event until the follow goal has finished, a preempt is pending or the script runs out. It stops on the first event that ends it, and its controller is the events so far delivered. |
| Orchestrator.Follow | path_control/src/pathcontroller.cpp:104-157 | PATH_READY is published, then the follow goal, carrying the goal's debug_test and velocity and the path. A done callback ending the isDone loop completes the run with its result. A finish leads to the bounded wait: a raised flag or a done callback completes the run, and a deadline aborts the goal with STATUS_TIMEOUT. A cancel or a new goal ends it preempted after one cancel. A run that returns true saw a done callback since the flag was last lowered, but this may be a late callback of an earlier goal. |
| Orchestrator.Supervise | path_control/src/pathcontroller.cpp:121-157 | The isDone loop of a goal just sent, then the done-flag wait, end as Follow states. A deadline after the end of the isDone loop keeps the run from blocking. |
| Orchestrator.FinishFollow | path_control/src/pathcontroller.cpp:149-157 | The done-flag wait after the follow goal is done. A deadline aborts the goal with STATUS_TIMEOUT; a raised flag or a done callback returns true, with that result stored. |
| Orchestrator.FollowComposes | path_control/src/pathcontroller.cpp:116-157 | What the isDone loop and the done-flag wait each do on their part of the script adds up to what the follow part does on the whole script. |
| Orchestrator.FollowsScriptExpiry | path_control/src/pathcontroller.cpp:149-156 | A deadline anywhere after the end of the isDone loop means the follow part does not block. |
| Orchestrator.CheckPlanAndFollow | path_control/src/pathcontroller.cpp:84-157 | A path with fewer than 2 poses is aborted with NO_PATH_FOUND (reached_goal false), before the preempt check. Otherwise a pending preempt gives setPreempted. In both cases no follow goal is sent and the result is false. Otherwise PATH_READY is published and then the follow goal is sent. A null stored path crashes. |
| Orchestrator.ProcessGoal | path_control/src/pathcontroller.cpp:76-158 | The done flag is reset first, so without any done callback in the script processGoal never returns true. Where the plan wait ends, the checks read the awaited path or, after a cancel, a new goal or shutdown, the path stored before: none crashes, and a short one ends the goal with NO_PATH_FOUND. A usable one after a cancel or a new goal ends it with setPreempted and no follow goal. A usable one after the awaited path or shutdown is followed: a done callback ending the isDone loop completes the run with its result; a finish leads to the done-flag wait, whose deadline gives STATUS_TIMEOUT; a cancel or a new goal gives setPreempted after that wait, and the run blocks only where that wait does. When the goal followed before is a supervised one that still owes its done callback, the first done callback delivered anywhere during the plan wait makes the next finish complete the run with that old result, and a cancel or new goal then ends it preempted without the bounded wait; any other done callback during the wait leaves the flag down. A false result means the goal ended with setPreempted, NO_PATH_FOUND or TIMEOUT, with one terminal call. When the plan wait does not run, the check reads the path an earlier goal left behind: none crashes, a short one reports NO_PATH_FOUND, a usable one with a preempt pending gives setPreempted, and otherwise it is followed on all the events. A true run consumed exactly the events before its rest, and the flags are what their callbacks made of them. |
| Orchestrator.ProcessSteps | path_control/src/pathcontroller.cpp:76-158 | processGoal's operational contract, together with its two steps: the plan wait from the lowered done flag, and the checks and the follow part on the events the wait left, each with the events it consumed. |
| Orchestrator.StepsCompose | path_control/src/pathcontroller.cpp:76-158 | The two steps of processGoal add up to its outcome on the whole script, whether or not the plan wait runs, and a true run consumed exactly the events before its rest. |
| Orchestrator.ProcessComposes | path_control/src/pathcontroller.cpp:76-157 | What the plan wait does from a lowered flag, followed by the checks and the follow part on the rest of the script, adds up to processGoal's outcome on the whole script, for every way the wait ends. That includes a done callback at any position before the end of the wait: the first one that the previous supervised goal still owed gives the stored result, and any other leaves the flag down. |
| Orchestrator.PathCheckedFrom | path_control/src/pathcontroller.cpp:84-102 | The checks of processGoal on the controller the plan wait left: that controller holds the awaited path or the one stored before, and a preempt request exactly after a cancel or a new goal, so the checks end the goal as processGoal's outcome on the ending event says. |
| Orchestrator.PathFollowedFrom | path_control/src/pathcontroller.cpp:104-157 | The follow part on the events after the plan wait, run on the controller the wait left, ends as processGoal's follow outcome says. When the first done callback owed by the previous goal came anywhere during the wait, the flag is up with that callback's result: a finish then completes the run with it, and a cancel or a new goal ends it preempted at once. Without such a callback the flag is down, and the run ends as the isDone loop and the done-flag wait decide. |
| Orchestrator.IdleComposes | path_control/src/pathcontroller.cpp:81-119 | When the plan wait does not run, processGoal is the goal pose followed by the checks on the path an earlier goal left. None crashes. A short one ends the goal with NO_PATH_FOUND and returns false. A usable one with a preempt pending ends it with setPreempted, returns false and sends no follow goal. A usable one without a pending preempt publishes PATH_READY, sends the follow goal, and the run ends as the follow part says on all the events. |
| Orchestrator.HandleFollowPathResult | path_control/src/pathcontroller.cpp:160-227 | The handler crashes exactly when no follow result was ever stored. Otherwise it makes one terminal call, chosen by the final state, that carries the translated stored result. |
| Orchestrator.ReplanRound | path_control/src/pathcontroller.cpp:47-61 | A round that returns true with a non-SUCCESS result is followed by STATUS_REPLAN, and that round counts one replan. A SUCCESS round adds no feedback. The feedback changes neither how the round ends nor the result it stored: the round is processGoal's outcome on its events, whether or not its plan wait runs. A true round consumed exactly the events before its rest, so the plan request, the stored path, the ROS flag, the preempt flag and the new-goal flag are what those events' callbacks made of them. |
| Orchestrator.RoundsStep | path_control/src/pathcontroller.cpp:46-61 | A replanned round that is processGoal's outcome on the events the rounds before it left extends the chain of rounds, with its motion status. |
| Orchestrator.RoundsExit | path_control/src/pathcontroller.cpp:46-64 | A chain of replanned rounds followed by a round that is not replanned ends the goal as that round does: a false round leaves the goal as processGoal ended it, and a true SUCCESS round has its result handled. |
| Orchestrator.ChainRound | path_control/src/pathcontroller.cpp:46-61 | One more round on the events the last round left is processGoal's outcome on them, from the controller the last round left. The flags that decide whether its plan wait runs are what the events consumed so far made of them. A replanned round extends the chain and adds one plan request, one follow goal and one STATUS_REPLAN; any other round is the last. |
| Orchestrator.RunRounds | path_control/src/pathcontroller.cpp:46-62 | The loop of the Replan mode runs rounds until one is not replanned: it blocks, crashes only on a null path, returns false having ended the goal, or returns true with a SUCCESS result. Every round before it is replanned and starts on the events the one before left. Each round is processGoal's outcome on its events, from the controller the one before left, with what the consumed events did to its flags. Each replanned round adds one plan request, one follow goal and one STATUS_REPLAN. |
| Orchestrator.ReplanLoop | path_control/src/pathcontroller.cpp:44-65 | The goal is a chain of rounds, each processGoal's outcome on the events the round before left, from the controller it left. Its plan request, stored path and flags are what the consumed events' callbacks made of them, so each round's plan wait runs or not as the source's would. Every round but the last returned true with a non-SUCCESS result, and the number of STATUS_REPLAN feedbacks is the number of those rounds. The goal blocks or crashes exactly when its last round does. A last round that returns true has a SUCCESS result, and the handler then makes the terminal call for it. A last round that returns false leaves the goal as processGoal ended it. There is one more plan request than replans. |
| Orchestrator.RunAbort | path_control/src/pathcontroller.cpp:38-42 | In Abort mode the handler always runs after processGoal. A completed follow run ends with the terminal call for the final state and translated result of the done callback that completed it. That is the first done callback still owed by the previous goal during the plan wait, at any position; otherwise it is the new goal's own. When processGoal already ended the goal, the handler calls a terminal method a second time, which actionlib rejects; the first call was processGoal's. A goal preempted before its path arrived, with a short leftover path, gets setAborted(NO_PATH_FOUND) and then a terminal call from a stale result, or crashes on a null result. The same holds when a cancel, a new goal or shutdown interrupts the plan wait: the stored path is read, and a usable one after a cancel or a new goal gives setPreempted followed by the handler's call. A preempt during the follow run gives setPreempted and then the handler's call. |
| Orchestrator.AbortComposes | path_control/src/pathcontroller.cpp:38-42 | processGoal followed by the handler ends a completed run with the terminal call for that run's stored result, whichever done callback stored it, at any position in the script. Where processGoal ended the goal itself, that ending comes right before the handler's call. It blocks where processGoal blocks. |
| Orchestrator.PathChecksHandledFrom | path_control/src/pathcontroller.cpp:38-42 | The handler after processGoal's checks: no path crashes, and a short path or a preempt before the follow goal is ended a second time by the handler, or the handler dereferences a null result. |
| Orchestrator.PathHandledPreempt | path_control/src/pathcontroller.cpp:122-135 | The handler after a preempt in the isDone loop: setPreempted comes right before the handler's call, and the goal blocks only where the done-flag wait does. |
| Orchestrator.PathHandledFinish | path_control/src/pathcontroller.cpp:149-157 | The handler after a finish. When the first done callback owed by the previous goal came during the plan wait, its result gives the terminal call at once. Otherwise the done callback that ends the done-flag wait gives it, and a deadline gives STATUS_TIMEOUT and then the handler's call. |
| Orchestrator.PathHandledFrom | path_control/src/pathcontroller.cpp:104-157 | The follow part of processGoal followed by the handler ends as the Abort mode's follow outcome says, for every way the isDone loop ends and every position of a done callback during the plan wait. |
| Orchestrator.AbortCalls | path_control/src/pathcontroller.cpp:38-42 | processGoal followed by the handler makes one terminal call after a completed run and two after a run that processGoal ended itself. |
| Orchestrator.RunByMode | path_control/src/pathcontroller.cpp:37-73 | An unknown failure mode is aborted with OTHER_ERROR at once. Every other mode starts with a plan request. In Abort mode the goal ends as RunAbort states, with the terminal call for its stored result. In Replan mode it ends as ReplanLoop states, round by round. A goal the switch returns from has been ended. |
| Orchestrator.CancelUnexpected | path_control/src/pathcontroller.cpp:30-33 | cancelGoal is called on the follow client exactly when an unexpected path is being followed, and nothing else changes. |
| Orchestrator.NavToGoal | path_control/src/pathcontroller.cpp:26-74 | A running unexpected path is cancelled before anything else. An invalid failure mode is aborted with no plan request. From the controller after that cancel, an Abort-mode goal ends as RunAbort states and a Replan-mode goal as ReplanLoop states. Whenever the callback returns, the goal has been ended. |
| Scenarios.PathWithStampTaken | path_control/src/pathcontroller.cpp:253-258 | The plan wait for stamp 5 drops a path stamped 4, stores the path stamped 5 and clears the token. The events after it are left for the rest of the goal. |
| Scenarios.CancelTimesOut | path_control/src/pathcontroller.cpp:122-135 | A cancel that is never acknowledged still ends the goal preempted, when the 10-second deadline passes. |
| Scenarios.AbortRoundTrip | path_control/src/pathcontroller.cpp:38-42 | A goal whose path arrives and whose follower then succeeds with debug_test 9 ends with setSucceeded(reached_goal, SUCCESS, 9). |
| Scenarios.FollowTimesOut | path_control/src/pathcontroller.cpp:149-156 | A follow goal that finishes without its done callback before the deadline makes the goal end with setAborted(STATUS_TIMEOUT). |
| Scenarios.LateDoneCallbackCounts | path_control/src/pathcontroller.cpp:76-81 | The late done callback of an earlier preempted goal, with a collision result, arrives during the plan wait. The new goal is then aborted with COLLISION as soon as its own follow goal finishes. |
| Scenarios.CancelDuringPlanWait | path_control/src/pathcontroller.cpp:84-102 | A cancel interrupts the plan wait while an earlier goal's usable path is stored. The checks read that path and the new goal ends with setPreempted. |
| Scenarios.ShutdownWithoutPath | path_control/src/pathcontroller.cpp:81-84 | Shutdown interrupts the plan wait of a controller that never stored a path, and the length check dereferences the null path. |
| Scenarios.ShortPathAborted | path_control/src/pathcontroller.cpp:84-94 | The awaited path arrives with one pose, and the goal ends with setAborted(NO_PATH_FOUND). |
| Scenarios.CollisionReplanned | path_control/src/pathcontroller.cpp:44-61 | A Replan-mode round whose follower reports a collision returns true, publishes STATUS_REPLAN last, and counts one plan, one follow goal and one replan. |
| Scenarios.UnexpectedRunCancelled | path_control/src/pathcontroller.cpp:26-42 | A goal arriving while an unexpected path is followed cancels it first. The unexpected run's done callback during the plan wait raises nothing. The new goal's own follow run then ends it with setSucceeded(reached_goal, SUCCESS, 9). |
| Scenarios.RoundCompletes | path_control/src/pathcontroller.cpp:44-61 | A Replan-mode round on a path and then a done callback completes with that callback's result. It leaves ROS up, nothing pending and the rest of the events to the next round. |
| Scenarios.ReplannedTwice | path_control/src/pathcontroller.cpp:44-65 | Collision, collision, success: the first two runs are replanned, each next round waits for its path again, and the third run ends the goal with setSucceeded(reached_goal, SUCCESS, 9), after three rounds. |
| Scenarios.TwiceRounds | path_control/src/pathcontroller.cpp:44-65 | The rounds of that goal are exactly three, with motion statuses COLLISION, COLLISION, SUCCESS. |
| Scenarios.CancelledBeforeReplan | path_control/src/pathcontroller.cpp:44-102 | A cancel during the first run's done-flag wait: the done callback still completes the run with a collision, which is replanned. The second round's plan wait does not run, the checks read the stored path, and the goal ends with setPreempted after two rounds. |
| Scenarios.CancelledFirstRound | path_control/src/pathcontroller.cpp:121-157 | The first round of that goal is replanned, consumes every event, and leaves the path stored and the preempt pending. |
| Frames.AddPrefixSlash | tools/scan2cloud/src/scan2cloud/scan_processor.cpp:331-344 | "" stays "". A name without a leading '/' gets exactly one prepended, and a name with one is unchanged. Every non-empty output starts with '/'. |
| Frames.AddPrefixSlashIdempotent | tools/scan2cloud/src/scan2cloud/scan_processor.cpp:331-344 | Normalising twice is the same as normalising once. |
| Frames.FramesEqual | tools/scan2cloud/src/scan2cloud/scan_processor.cpp:346-354 | Two names are equal frames iff both are empty, or both are non-empty with the same name after an optional leading '/' is removed. |
| Frames.FramesEqualIsEquivalence | tools/scan2cloud/src/scan2cloud/scan_processor.cpp:346-354 | Frame equality is reflexive, symmetric and transitive. |
| Frames.FramesEqualExamples | tools/scan2cloud/src/scan2cloud/scan_processor.cpp:346-354 | "x" equals "/x", but "" differs from "/", and "/x" differs from "//x". |
| PointCloud.ToUint32 | tools/scan2cloud/src/scan2cloud/scan_processor.cpp:238-242 | A conversion to uint32 keeps the value modulo 2^32 and is the identity on values in range. |
| PointCloud.CreateEmptyCloud | tools/scan2cloud/src/scan2cloud/scan_processor.cpp:229-265 | An empty cloud has one row, declares itself little-endian (is_bigendian false) and is not dense, and uses point step 12 with the x, y, z fields. Its row step equals its data size, and all data is zero. The width is the size, and a negative size wraps to size + 2^32. Up to MaxCloudPoints the data holds exactly 12 bytes per point; beyond that the 32-bit product wraps and the buffer is shorter than the points need. |
| PointCloud.XyzFieldsTile | tools/scan2cloud/src/scan2cloud/scan_processor.cpp:244-262 | The three FLOAT32 fields x, y, z (count 1) tile the 12-byte point step at offsets 0, 4 and 8, without gaps or overlaps. |
| PointCloud.LeBytesRoundTrip | tools/scan2cloud/src/scan2cloud/scan_processor.cpp:274-284 | Reading back the four bytes a coordinate is stored as on a little-endian host, in the order the cloud declares (is_bigendian false), gives the coordinate. |
| PointCloud.EncodePointsAppend | tools/scan2cloud/src/scan2cloud/scan_processor.cpp:276-293 | Packing two point lists one after the other is the packing of their concatenation. |
| PointCloud.DecodeEncoded | tools/scan2cloud/src/scan2cloud/scan_processor.cpp:274-284 | In a cloud whose data is the packed points, point i is read back from slot i through the x, y, z field offsets. |
| PointCloud.WritePoints | tools/scan2cloud/src/scan2cloud/scan_processor.cpp:276-284 | Writing points at a slot replaces exactly their 12-byte slots and leaves every other byte unchanged. |
| PointCloud.WriteBoth | tools/scan2cloud/src/scan2cloud/scan_processor.cpp:274-293 | Writing p1 from the first slot and then p2 into a buffer sized for both fills the buffer exactly with the packing of p1 followed by p2. |
| PointCloud.CreateCloud | tools/scan2cloud/src/scan2cloud/scan_processor.cpp:269-294 | The cloud is sized to \|p1\|+\|p2\| points, and its data is exactly the packing of p1 followed by p2. Reading the slots back gives p1 then p2, in order. |
| PointCloud.HoldsSplit | tools/scan2cloud/src/scan2cloud/scan_processor.cpp:276-293 | When consecutive slots hold p1 then p2, p1's points sit at their own indices and p2's at their index plus \|p1\|. |
| PointCloud.CreateCloudOf | tools/scan2cloud/src/scan2cloud/scan_processor.cpp:296-317 | The single-list overload sizes the cloud to the list. Every point reads back at its own index, and the data is exactly the packed list. |
| PointCloud.OversizedCloudWraps | tools/scan2cloud/src/scan2cloud/scan_processor.cpp:238-264 | With MaxCloudPoints + 1 points the data buffer is 8 bytes long, and a size of -1 gives width 2^32 - 1. |
| CloudTransform.MovedByIdentity | tools/scan2cloud/src/scan2cloud/scan_processor.cpp:362-368 | The same-frame copy is the transform by the identity. |
| CloudTransform.ApplyTransform | tools/scan2cloud/src/scan2cloud/scan_processor.cpp:319-329 | Transformed points are appended in order after what the output already held, and the old contents are kept. |
| CloudTransform.TransformCloud | tools/scan2cloud/src/scan2cloud/scan_processor.cpp:356-410 | The output is cleared first. When the frames are equal it is an element-for-element copy of the input. Otherwise a failed lookup leaves it empty, and a successful one gives every input point moved, in order. |
| ScanFilters.GetWeight | tools/scan2cloud/src/scan2cloud/scan_processor.cpp:21-38 | The indices read as neighbours are exactly [max(0, idx-w), min(size-1, idx+w+1)), in increasing order. All are in bounds and within w of idx. The last point is never read as a neighbour, even though the first point is; this asymmetry comes from the `size-1` bound and looks unintended. The weight is the sum of the terms over exactly that window. |
| ScanFilters.WeightIsLocal | tools/scan2cloud/src/scan2cloud/scan_processor.cpp:21-38 | A point's weight depends only on the point and its window neighbours. The last point is never read as a neighbour. |
| ScanFilters.KeptIndicesSpec | tools/scan2cloud/src/scan2cloud/scan_processor.cpp:52-62 | The kept indices are increasing and in range, and an index is kept iff its weight passes the threshold. |
| ScanFilters.KeptPointsAtKeptIndices | tools/scan2cloud/src/scan2cloud/scan_processor.cpp:52-62 | The kept points are the input points at the kept indices, so they form an order-preserving subsequence. |
| ScanFilters.NoiseFilter | tools/scan2cloud/src/scan2cloud/scan_processor.cpp:41-62 | Both noise filters output, in input order, exactly the points whose weight exceeds the threshold. The output is never longer than the input. |
| ScanFilters.NegativeMinPointsRejectsAll | tools/scan2cloud/src/scan2cloud/scan_processor.cpp:100 | A negative minPoints is converted to a huge size_t in the length comparison, so no segment is ever published. |
| ScanFilters.StartsSpec | tools/scan2cloud/src/scan2cloud/scan_processor.cpp:83-107 | Segments start at point 0 and then, in increasing order, exactly at the points that fail the link test with their predecessor. |
| ScanFilters.RunsBetweenStarts | tools/scan2cloud/src/scan2cloud/scan_processor.cpp:83-111 | Each segment is the contiguous slice of the input from its start to the next start (or the end). |
| ScanFilters.RunsPartition | tools/scan2cloud/src/scan2cloud/scan_processor.cpp:83-111 | The segments, concatenated, are the input: every point lies in exactly one segment, in order. |
| ScanFilters.AcceptedConcatBound | tools/scan2cloud/src/scan2cloud/scan_processor.cpp:98-116 | Publishing only the accepted segments never yields more points than the segments hold. |
| ScanFilters.SearchWindow | tools/scan2cloud/src/scan2cloud/scan_processor.cpp:88-96 | The window loop never uses its counter, so it finds a match iff the window is positive and the one test holds. |
| ScanFilters.SegmentFilter | tools/scan2cloud/src/scan2cloud/scan_processor.cpp:71-118 | Empty input gives empty output. Otherwise the output is the in-order concatenation of the maximal runs of linked points that have more than minPoints points and pass the end-to-end width test. The last run is flushed too, and the output is never longer than the input. |

## Left out

- ROS plumbing is left out: node handle, publishers, subscribers, `waitForServer`, logging and parameter loading (scan2cloud's `SetParams`). It is I/O and configuration; `CloudTransform.DefaultFixedFrame` and `ControllerState.DefaultUnexpectedPathVelocity` keep the two defaults the modelled code depends on.
- Threads and wall-clock time are left out. Callbacks are events interleaved into the execute thread's waits. The 10-second deadline is the `ClockExpires` event, and `ros::ok()` turning false is the `Shutdown` event.
- `followPathActiveCB` only logs, so it has no event.
- Call counts are stated through the controller's `calls` record, which `Emit` updates together with the trace. `ControllerState.EmitCounted` and `ControllerState.CallbackCounted` prove that the record equals the count of the trace. The orchestrator methods do not restate that equality, because carrying it through every wait makes the proofs too costly.
- The methods take one finite event script instead of all interleavings. A wait whose script runs out reports `Blocked`, which stands for "still waiting".
- On a follower feedback status it does not know, the controller publishes the feedback with its status left unset; it does not drop it. The model follows the code (`FeedbackUnset`).
- All floating-point numerics in scan2cloud are abstracted as parameters, because they are floats: Tukey weights, norms, the distance and width tests, and `transform * point`.
- The double-to-float conversion of coordinates is left out. Points carry the float32 bit patterns.
- Host byte order is left out. The source stores each float through a `float*` (lines 274-293), so the bytes are in the host's order, while line 239 always declares the cloud little-endian. The model's packing (`PointCloud.EncodePoint`) is the one a little-endian host produces; on a big-endian host the source's data would contradict its own is_bigendian flag.
- The tf listener (`waitForTransform`, `lookupTransform`, the stamped versus latest choice, and the exception) is a foreign library. It is the `lookup` parameter: `Some` transform or `None`.
- `ToPoints` and `ProcessScan` (laser geometry, trigonometry) are not part of this model.
- ScanFilters.GetWeight: the 32-bit overflow of `idx ± windowSize` is not modelled; indices are unbounded integers.
- ScanFilters.SearchWindow: the 32-bit overflow of `i + windowSize` is not modelled.
- PointCloud.CreateCloud: requires at most `MaxCloudPoints` points. Beyond that the source's buffer wraps to fewer bytes than it then writes. `PointCloud.OversizedCloudWraps` exhibits the short buffer. With zero points the source takes `&cloud.data.front()` of an empty vector (line 274), which is undefined behaviour even though nothing is written through it. The model returns the empty cloud.
- PointCloud.CreateCloudOf: the same bound, for the same reason. With zero points the source takes `&cloud.data.front()` of an empty vector (line 302), which is undefined behaviour; the model returns the empty cloud.
- ScanFilters.NoiseFilter: NoiseFilterDist differs only in scaling the Tukey constant by the centre point's range. The centre is an argument of the weight model's `add`, so one member covers both.
- ReplanRound: does not state whether a true round's own follow goal still owes its done callback. The next round splits a done callback during its plan wait on exactly that (`Waits.Notifies`), so for such a script the contracts give both branches and leave open which one applies. Scripts without a done callback during a later round's plan wait, like the Replan scenarios, are fully determined.
