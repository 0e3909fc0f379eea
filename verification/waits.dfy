/**
  The three busy-waits of the execute thread, stated per event: which events
  end which wait, where in a script the first of them is, and how a single
  event moves the controller while a wait is still running.
 */
module Waits {
  import opened Wrappers
  import opened PathMessages
  import opened ActionServer
  import opened ControllerState

  /** The condition that keeps waitForPath's loop spinning. */
  predicate WaitingForPath(c: Controller) {
    c.token != 0 && c.rosOk && !c.preemptRequested && !c.newGoalAvailable
  }

  /** A supervised follow goal whose done callback has not run: that callback raises the done flag. */
  predicate Notifies(c: Controller) {
    c.follow.Tracking? && c.follow.kind == Supervised && !c.follow.notified
  }

  /**
    The waits: the plan wait for the path with a stamp; the isDone loop over
    a supervised follow goal, which knows whether the goal's done callback
    has already run; and the bounded wait for the done flag, which knows
    whether a done callback would raise it.
   */
  datatype Wait = PathWait(stamp: Stamp) | FollowWait(notified: bool) | DoneWait(notifies: bool)

  /**
    The events that end a wait while a goal is active. ros::ok() is checked
    by the plan wait only; the deadline bounds the done-flag wait only.
   */
  predicate Ends(w: Wait, e: Event) {
    match w
    case PathWait(t) =>
      (e.PathArrives? && e.path.stamp == t) || e.CancelRequested? || e.NewGoalArrives? || e.Shutdown?
    case FollowWait(n) =>
      e.FollowerFinishes? || (e.FollowerDone? && !n) || e.CancelRequested? || e.NewGoalArrives?
    case DoneWait(n) =>
      e.ClockExpires? || (e.FollowerDone? && n)
  }

  /** The position of the first event of `s` that ends `w`, or |s| when there is none. */
  function EndIndex(w: Wait, s: seq<Event>): (k: nat)
    ensures k <= |s|
    ensures forall j | 0 <= j < k :: !Ends(w, s[j])
    ensures k < |s| ==> Ends(w, s[k])
  {
    if s == [] then 0 else if Ends(w, s[0]) then 0 else 1 + EndIndex(w, s[1..])
  }

  /** The first ending event is the one at `k` exactly when no earlier event ends the wait. */
  lemma EndIndexAt(w: Wait, s: seq<Event>, k: nat)
    requires k < |s| && Ends(w, s[k])
    requires forall j | 0 <= j < k :: !Ends(w, s[j])
    ensures EndIndex(w, s) == k
  {
  }

  /** A script in which no event ends `w` runs out before the wait ends. */
  lemma NoEndAt(w: Wait, s: seq<Event>)
    requires forall j | 0 <= j < |s| :: !Ends(w, s[j])
    ensures EndIndex(w, s) == |s|
  {
  }

  /** The events after the one that ends `w`; none when the wait does not end. */
  function After(w: Wait, s: seq<Event>): (t: seq<Event>)
    ensures EndIndex(w, s) < |s| ==> t == s[EndIndex(w, s) + 1..]
    ensures |t| < |s| || s == []
  {
    var k := EndIndex(w, s);
    if k < |s| then s[k + 1..] else []
  }

  /** A deadline passes somewhere after the event that ends `w`. */
  predicate ExpiresAfterEnd(w: Wait, s: seq<Event>) {
    exists k | EndIndex(w, s) < k < |s| :: s[k].ClockExpires?
  }

  /** A deadline after the end of `w` ends a done-flag wait run on the events that follow. */
  lemma ExpiryEndsDoneWait(w: Wait, s: seq<Event>, n: bool)
    requires ExpiresAfterEnd(w, s)
    ensures EndIndex(w, s) < |s|
    ensures EndIndex(DoneWait(n), After(w, s)) < |After(w, s)|
  {
    var e := EndIndex(w, s);
    var k :| e < k < |s| && s[k].ClockExpires?;
    var t := After(w, s);
    assert t == s[e + 1..];
    assert t[k - e - 1] == s[k];
    assert Ends(DoneWait(n), t[k - e - 1]);
  }

  /**
    One event during the plan wait ends it exactly when it is one of the
    wait's ending events; the awaited path is stored as it ends the wait.
   */
  lemma PathWaitStep(c: Controller, e: Event)
    requires c.active && WaitingForPath(c)
    ensures !WaitingForPath(Callback(c, e)) <==> Ends(PathWait(c.token), e)
    ensures WaitingForPath(Callback(c, e)) ==> Callback(c, e).token == c.token
    ensures e.PathArrives? && Ends(PathWait(c.token), e) ==>
      Callback(c, e) == c.(requestedPath := Some(e.path), token := 0)
    // any other event leaves the stored path and the token; only a cancel or a new goal preempts
    ensures !e.PathArrives? ==> Callback(c, e).requestedPath == c.requestedPath && Callback(c, e).token == c.token
    ensures Callback(c, e).preemptRequested <==> e.CancelRequested? || e.NewGoalArrives?
  {
    match e
    case PathArrives(p) =>
    case FollowerDone(st, res) =>
      assert Callback(c, e).newGoalAvailable == c.newGoalAvailable;
    case _ =>
  }

  /**
    One event during the done-flag wait raises the flag exactly when it is
    the done callback of a goal that notifies, and then stores its result;
    any other event leaves the goal notifying as it was.
   */
  lemma DoneWaitStep(c: Controller, e: Event)
    requires c.active && !c.followDone
    ensures Callback(c, e).followDone <==> e.FollowerDone? && Notifies(c)
    ensures Callback(c, e).followDone ==>
      Callback(c, e).followResult == Some(e.result) && Callback(c, e).finalState == Some(e.state)
    ensures !Callback(c, e).followDone ==> Notifies(Callback(c, e)) == Notifies(c)
  {
    match e
    case FollowerDone(st, res) =>
    case PathArrives(p) =>
    case _ =>
  }

  /**
    One event during the isDone loop of a supervised goal that is neither
    finished nor preempted: the goal becomes finished or preempted exactly
    when the event ends the loop, never both. Only the goal's first done
    callback stores a result; every other event leaves the stored result.
   */
  lemma FollowWaitStep(c: Controller, e: Event)
    requires c.active && c.follow.Tracking? && c.follow.kind == Supervised
    requires !c.follow.finished && !c.preemptRequested
    ensures Callback(c, e).follow.Tracking? && Callback(c, e).follow.kind == Supervised
    ensures (Callback(c, e).follow.finished || Callback(c, e).preemptRequested) <==>
      Ends(FollowWait(c.follow.notified), e)
    ensures !(Callback(c, e).follow.finished && Callback(c, e).preemptRequested)
    ensures Callback(c, e).follow.finished ==> e.FollowerFinishes? || e.FollowerDone?
    ensures Callback(c, e).preemptRequested ==> e.CancelRequested? || e.NewGoalArrives?
    ensures !Callback(c, e).follow.finished ==> Callback(c, e).follow.notified == c.follow.notified
    ensures e.FollowerDone? && !c.follow.notified ==>
      && Callback(c, e).followDone && Callback(c, e).followResult == Some(e.result)
      && Callback(c, e).finalState == Some(e.state)
    ensures !(e.FollowerDone? && !c.follow.notified) ==>
      && Callback(c, e).followDone == c.followDone && Callback(c, e).followResult == c.followResult
      && Callback(c, e).finalState == c.finalState && Callback(c, e).follow.notified == c.follow.notified
  {
    match e
    case FollowerDone(st, res) =>
    case PathArrives(p) =>
    case _ =>
  }

  /** The position of the first done callback among the first `k` events of `s`, or `k` when none comes. */
  function FirstDone(s: seq<Event>, k: nat): (d: nat)
    requires k <= |s|
    ensures d <= k
    ensures forall j | 0 <= j < d :: !s[j].FollowerDone?
    ensures d < k ==> s[d].FollowerDone?
  {
    if k == 0 then 0 else if s[0].FollowerDone? then 0 else 1 + FirstDone(s[1..], k - 1)
  }

  /** The first done callback is the one at `d` exactly when none comes before it. */
  lemma FirstDoneAt(s: seq<Event>, k: nat, d: nat)
    requires d <= k <= |s|
    requires forall j | 0 <= j < d :: !s[j].FollowerDone?
    requires d < k ==> s[d].FollowerDone?
    ensures FirstDone(s, k) == d
  {
  }

  /** One more event: the first done callback so far stays first, or the event is the first one. */
  lemma FirstDoneStep(s: seq<Event>, i: nat)
    requires i < |s|
    ensures FirstDone(s, i) < i ==> FirstDone(s, i + 1) == FirstDone(s, i)
    ensures FirstDone(s, i) == i ==> FirstDone(s, i + 1) == if s[i].FollowerDone? then i else i + 1
  {
    FirstDoneAt(s, i + 1, if FirstDone(s, i) < i then FirstDone(s, i) else if s[i].FollowerDone? then i else i + 1);
  }

  /**
    One event while a goal is active, and whatever the done flag: the done
    callback of a goal that notifies raises the flag with its result and
    ends the notifying; any other event keeps the flag, the stored result
    and whether the goal notifies.
   */
  lemma DoneStep(c: Controller, e: Event)
    requires c.active
    ensures Notifies(c) && e.FollowerDone? ==>
      && Callback(c, e).followDone && Callback(c, e).followResult == Some(e.result)
      && Callback(c, e).finalState == Some(e.state) && !Notifies(Callback(c, e))
    ensures !(Notifies(c) && e.FollowerDone?) ==>
      && Callback(c, e).followDone == c.followDone && Callback(c, e).followResult == c.followResult
      && Callback(c, e).finalState == c.finalState && Notifies(Callback(c, e)) == Notifies(c)
  {
    match e
    case FollowerDone(st, res) =>
    case PathArrives(p) =>
    case _ =>
  }

  /** The controller after the events `t` are delivered one by one from `c`, with no call of the execute thread between them. */
  function Deliver(c: Controller, t: seq<Event>): Controller
    decreases |t|
  {
    if t == [] then c else Callback(Deliver(c, t[..|t| - 1]), t[|t| - 1])
  }

  /** Two controllers with the same plan request, stored path and action-server and ROS flags. */
  predicate Agrees(x: Controller, y: Controller) {
    && x.token == y.token && x.requestedPath == y.requestedPath && x.active == y.active
    && x.rosOk == y.rosOk && x.preemptRequested == y.preemptRequested && x.newGoalAvailable == y.newGoalAvailable
  }

  /**
    What one event does to the plan request, the stored path and the flags:
    the awaited path fills the request, a cancel or a new goal raises the
    preempt flag of an active goal, a new goal is recorded, and shutdown
    clears the ROS flag.
   */
  lemma CallbackFlags(c: Controller, e: Event)
    ensures var awaited := e.PathArrives? && c.token != 0 && e.path.stamp == c.token;
      && Callback(c, e).token == (if awaited then 0 else c.token)
      && Callback(c, e).requestedPath == (if awaited then Some(e.path) else c.requestedPath)
      && Callback(c, e).active == c.active
      && Callback(c, e).rosOk == (c.rosOk && !e.Shutdown?)
      && Callback(c, e).preemptRequested == (c.preemptRequested || (c.active && (e.CancelRequested? || e.NewGoalArrives?)))
      && Callback(c, e).newGoalAvailable == (c.newGoalAvailable || e.NewGoalArrives?)
  {
    match e
    case PathArrives(p) =>
    case FollowerDone(st, res) =>
    case FollowerFeedback(fb) =>
    case _ =>
  }

  /** The callbacks change the plan request and the flags only by what those already hold. */
  lemma CallbackAgrees(x: Controller, y: Controller, e: Event)
    requires Agrees(x, y)
    ensures Agrees(Callback(x, e), Callback(y, e))
  {
    CallbackFlags(x, e);
    CallbackFlags(y, e);
  }

  /** Controllers that agree go on agreeing through the same events. */
  lemma {:induction false} DeliverAgrees(x: Controller, y: Controller, t: seq<Event>)
    requires Agrees(x, y)
    ensures Agrees(Deliver(x, t), Deliver(y, t))
    decreases |t|
  {
    if t != [] {
      DeliverAgrees(x, y, t[..|t| - 1]);
      CallbackAgrees(Deliver(x, t[..|t| - 1]), Deliver(y, t[..|t| - 1]), t[|t| - 1]);
    }
  }

  /** Delivering one more event of a script. */
  lemma DeliverSnoc(c: Controller, s: seq<Event>, i: nat)
    requires i < |s|
    ensures Deliver(c, s[..i + 1]) == Callback(Deliver(c, s[..i]), s[i])
  {
    assert s[..i + 1][..i] == s[..i];
  }

  /** Delivering two scripts one after the other is delivering their concatenation. */
  lemma {:induction false} DeliverAppend(c: Controller, a: seq<Event>, b: seq<Event>)
    ensures Deliver(c, a + b) == Deliver(Deliver(c, a), b)
    decreases |b|
  {
    if b == [] {
      assert a + b == a;
    } else {
      assert (a + b)[..|a + b| - 1] == a + b[..|b| - 1];
      DeliverAppend(c, a, b[..|b| - 1]);
    }
  }

  /** Once the plan request is filled, no later event changes it or the stored path. */
  lemma {:induction false} DeliverFilled(c: Controller, t: seq<Event>)
    requires c.token == 0
    ensures Deliver(c, t).token == 0 && Deliver(c, t).requestedPath == c.requestedPath
    decreases |t|
  {
    if t != [] {
      DeliverFilled(c, t[..|t| - 1]);
      CallbackFlags(Deliver(c, t[..|t| - 1]), t[|t| - 1]);
    }
  }

  /**
    A part of the execute thread ran from `c0` on the events `s` and left
    `rest`: the events before `rest` are the ones it consumed, and `c`
    holds what they did to the plan request, the stored path and the flags.
   */
  predicate Consumed(c0: Controller, s: seq<Event>, c: Controller, rest: seq<Event>) {
    && |rest| <= |s| && rest == s[|s| - |rest|..]
    && Agrees(c, Deliver(c0, s[..|s| - |rest|]))
  }

  /** A part that consumed nothing leaves what it started from. */
  lemma ConsumedNothing(c0: Controller, s: seq<Event>, c: Controller)
    requires Agrees(c, c0)
    ensures Consumed(c0, s, c, s)
  {
    assert s[..0] == [];
  }

  /** A loop from `c0` has delivered the first `i` events of `s` and is at `c`. */
  predicate Delivered(c0: Controller, s: seq<Event>, i: nat, c: Controller) {
    i <= |s| && c == Deliver(c0, s[..i])
  }

  /** A loop that has delivered nothing is where it started. */
  lemma DeliveredNothing(c0: Controller, s: seq<Event>)
    ensures Delivered(c0, s, 0, c0)
  {
    assert s[..0] == [];
  }

  /** Delivering the next event keeps the loop's account. */
  lemma DeliveredStep(c0: Controller, s: seq<Event>, i: nat, c: Controller)
    requires Delivered(c0, s, i, c) && i < |s|
    ensures Delivered(c0, s, i + 1, Callback(c, s[i]))
  {
    DeliverSnoc(c0, s, i);
  }

  /** A loop that delivered the first `i` events of `s` one by one consumed exactly those. */
  lemma ConsumedPrefix(c0: Controller, s: seq<Event>, i: nat, c: Controller)
    requires Delivered(c0, s, i, c)
    ensures Consumed(c0, s, c, s[i..])
  {
  }

  /**
    What delivering the events `t` does to the flags: the ROS flag stays up
    unless a shutdown comes, a new goal is recorded once one comes, and the
    preempt flag of an active goal is raised once a cancel or a new goal comes.
   */
  lemma {:induction false} DeliverFlags(c: Controller, t: seq<Event>)
    ensures Deliver(c, t).active == c.active
    ensures Deliver(c, t).rosOk == (c.rosOk && forall i | 0 <= i < |t| :: !t[i].Shutdown?)
    ensures Deliver(c, t).newGoalAvailable == (c.newGoalAvailable || exists i | 0 <= i < |t| :: t[i].NewGoalArrives?)
    ensures Deliver(c, t).preemptRequested ==
      (c.preemptRequested || (c.active && exists i | 0 <= i < |t| :: t[i].CancelRequested? || t[i].NewGoalArrives?))
    decreases |t|
  {
    if t != [] {
      var u := t[..|t| - 1];
      DeliverFlags(c, u);
      CallbackFlags(Deliver(c, u), t[|t| - 1]);
      assert forall i | 0 <= i < |u| :: u[i] == t[i];
      assert t == u + [t[|t| - 1]];
    }
  }

  /** Starting from a controller that agrees changes nothing of what the part consumed. */
  lemma ConsumedFrom(c0: Controller, c0': Controller, s: seq<Event>, c: Controller, rest: seq<Event>)
    requires Agrees(c0, c0') && Consumed(c0', s, c, rest)
    ensures Consumed(c0, s, c, rest)
  {
    DeliverAgrees(c0, c0', s[..|s| - |rest|]);
  }

  /** Two parts, the second starting where the first left off, consume the events of both. */
  lemma ConsumedThen(c0: Controller, s: seq<Event>, c1: Controller, c1': Controller, s1: seq<Event>,
                     c2: Controller, s2: seq<Event>)
    requires Consumed(c0, s, c1, s1) && Agrees(c1', c1) && Consumed(c1', s1, c2, s2)
    ensures Consumed(c0, s, c2, s2)
  {
    var n1 := |s| - |s1|;
    var n2 := |s1| - |s2|;
    assert s[..n1 + n2] == s[..n1] + s1[..n2];
    assert s2 == s[n1 + n2..];
    DeliverAppend(c0, s[..n1], s1[..n2]);
    DeliverAgrees(c1', Deliver(c0, s[..n1]), s1[..n2]);
  }
}
