/**
 The hand-off of muduo/EventLoop.cpp: any number of threads queue functors for one loop thread and
 wake it through an eventfd.  Each action is one access to shared state; actions of different
 threads interleave in every order.
 */
module LoopProtocol {
  import opened Common

  type ThreadId = nat

  datatype Sender = LoopThread | Other(id: ThreadId)

  /** A functor, with the thread that hands it over and whether it does so through runInLoop. */
  datatype Task = Task(sender: Sender, viaRun: bool, number: nat)

  /** Where the loop's thread is in EventLoop::loop. */
  datatype LoopPc =
    | NotStarted
    | AtTest       // about to test quit_
    | AtPoll       // waiting in poll
    | Handling     // handling the active channels
    | Starting     // callingPendingFunctors_ set, the swap still to come
    | Running      // running the swapped-out functors
    | Stopped

  /** Another thread has pushed a functor, or set quit_, and has yet to write the eventfd. */
  datatype ThreadPc = Resting | Pushed | QuitSet

  /** An active channel: the eventfd's own, or any other, whose handler runs user code. */
  datatype Source = WakeupFd | OtherFd

  datatype State = State(
    pc: LoopPc,
    active: seq<Source>,
    calling: bool,            // callingPendingFunctors_
    quit: bool,               // quit_
    counter: nat,             // the eventfd's counter
    pending: seq<Task>,       // pendingFunctors_
    batch: seq<Task>,         // the functors swapped out and not yet begun
    ownPushed: bool,          // the loop's own thread is between its push and its wake-up test
    threads: map<ThreadId, ThreadPc>,
    enqueued: seq<Task>,      // every functor ever queued, in the order of the pushes
    executed: seq<Task>,      // every functor begun from a batch, in order
    submitted: seq<Task>,     // every runInLoop call, in order
    ran: seq<Task>,           // every functor begun, from a batch or at once, in order
    polls: nat                // times the loop has gone to poll
  )

  function Initial(ids: set<ThreadId>): State {
    State(NotStarted, [], false, false, 0, [], [], false, map i | i in ids :: Resting, [], [], [], [], 0)
  }

  datatype Action =
    // another thread
    | Push(id: ThreadId, task: Task)          // queueInLoop or runInLoop, under the lock
    | SetQuit(id: ThreadId)
    | Wake(id: ThreadId)                      // the write to the eventfd that follows either
    // user code on the loop's own thread
    | OwnRun(task: Task)                      // runInLoop: begun at once
    | OwnPush(task: Task)                     // queueInLoop, under the lock
    | OwnWakeTest                             // and its test whether to write the eventfd
    | OwnQuit
    // the loop
    | Begin
    | Test
    | PollReturns(active: seq<Source>)
    | HandleNext
    | StartPending
    | Swap
    | RunNext
    | EndPending

  /** The largest value an eventfd counter takes; a write beyond it fails and is only logged. */
  const COUNTER_MAX: nat := 0xffff_ffff_ffff_fffe

  function Written(counter: nat): nat {
    if counter < COUNTER_MAX then counter + 1 else counter
  }

  predicate InUserCode(s: State) {
    (s.pc.NotStarted? || s.pc.Handling? || s.pc.Running?) && !s.ownPushed
  }

  predicate Enabled(s: State, a: Action) {
    match a
    case Push(id, task) => id in s.threads && s.threads[id].Resting? && task.sender == Other(id)
    case SetQuit(id) => id in s.threads && s.threads[id].Resting?
    case Wake(id) => id in s.threads && !s.threads[id].Resting?
    case OwnRun(task) => InUserCode(s) && task.sender.LoopThread? && task.viaRun
    case OwnPush(task) => InUserCode(s) && task.sender.LoopThread? && !task.viaRun
    case OwnWakeTest => s.ownPushed
    case OwnQuit => InUserCode(s)
    case Begin => s.pc.NotStarted? && !s.ownPushed
    case Test => s.pc.AtTest?
    case PollReturns(active) => s.pc.AtPoll? && (WakeupFd in active ==> s.counter > 0)
    case HandleNext => s.pc.Handling? && s.active != [] && !s.ownPushed
    case StartPending => s.pc.Handling? && s.active == [] && !s.ownPushed
    case Swap => s.pc.Starting?
    case RunNext => s.pc.Running? && s.batch != [] && !s.ownPushed
    case EndPending => s.pc.Running? && s.batch == [] && !s.ownPushed
  }

  function Next(s: State, a: Action): State
    requires Enabled(s, a)
  {
    match a
    case Push(id, task) =>
      s.(pending := s.pending + [task], enqueued := s.enqueued + [task],
         submitted := if task.viaRun then s.submitted + [task] else s.submitted,
         threads := s.threads[id := Pushed])
    case SetQuit(id) => s.(quit := true, threads := s.threads[id := QuitSet])
    case Wake(id) => s.(counter := Written(s.counter), threads := s.threads[id := Resting])
    case OwnRun(task) => s.(submitted := s.submitted + [task], ran := s.ran + [task])
    case OwnPush(task) => s.(pending := s.pending + [task], enqueued := s.enqueued + [task], ownPushed := true)
    case OwnWakeTest => s.(counter := if s.calling then Written(s.counter) else s.counter, ownPushed := false)
    case OwnQuit => s.(quit := true)
    case Begin => s.(pc := AtTest, quit := false)
    case Test => if s.quit then s.(pc := Stopped) else s.(pc := AtPoll, polls := s.polls + 1)
    case PollReturns(active) => s.(pc := Handling, active := active)
    case HandleNext => s.(active := s.active[1..], counter := if s.active[0].WakeupFd? then 0 else s.counter)
    case StartPending => s.(pc := Starting, calling := true)
    case Swap => s.(pc := Running, batch := s.pending, pending := [])
    case RunNext =>
      s.(batch := s.batch[1..], executed := s.executed + [s.batch[0]], ran := s.ran + [s.batch[0]])
    case EndPending => s.(pc := AtTest, calling := false)
  }

  datatype Run = Run(states: seq<State>, acts: seq<Action>)

  ghost predicate IsRunFrom(start: State, r: Run) {
    && |r.states| == |r.acts| + 1
    && r.states[0] == start
    && forall i {:trigger r.acts[i]} :: 0 <= i < |r.acts| ==>
         Enabled(r.states[i], r.acts[i]) && r.states[i + 1] == Next(r.states[i], r.acts[i])
  }

  ghost predicate IsRun(ids: set<ThreadId>, r: Run) {
    IsRunFrom(Initial(ids), r)
  }

  /** A run with one step more, or with none. */
  function WithStep(r: Run, b: Option<Action>, t: State): Run {
    if b.Some? then Run(r.states + [t], r.acts + [b.value]) else r
  }

  ghost predicate EndsIn(ids: set<ThreadId>, r: Run, s: State) {
    IsRun(ids, r) && r.states[|r.states| - 1] == s
  }

  lemma StepExtends(ids: set<ThreadId>, r: Run, s: State, b: Option<Action>, t: State)
    requires EndsIn(ids, r, s)
    requires if b.Some? then Enabled(s, b.value) && t == Next(s, b.value) else t == s
    ensures EndsIn(ids, WithStep(r, b, t), t)
  {
    hide Enabled, Next;
  }

  /** Some other thread has pushed and will write the eventfd. */
  predicate WakeComing(s: State) {
    exists id :: id in s.threads && s.threads[id].Pushed?
  }

  predicate QuitWakeComing(s: State) {
    exists id :: id in s.threads && s.threads[id].QuitSet?
  }

  // ---------------------------------------------------------------- exactly once, in order

  predicate QueueInv(s: State) {
    && s.enqueued == s.executed + s.batch + s.pending
    && (s.batch != [] ==> s.pc.Running?)
    && (s.calling <==> s.pc.Starting? || s.pc.Running?)
    && (s.ownPushed ==> s.pc.NotStarted? || s.pc.Handling? || s.pc.Running?)
  }

  lemma QueueStep(s: State, a: Action)
    requires QueueInv(s) && Enabled(s, a)
    ensures QueueInv(Next(s, a))
  {
    match a
    case Push(_, task) => assert s.executed + s.batch + (s.pending + [task]) == s.enqueued + [task];
    case OwnPush(task) => assert s.executed + s.batch + (s.pending + [task]) == s.enqueued + [task];
    case Swap => assert s.executed + s.pending + [] == s.enqueued;
    case RunNext =>
      assert s.batch == [s.batch[0]] + s.batch[1..];
      assert (s.executed + [s.batch[0]]) + s.batch[1..] == s.executed + s.batch;
    case _ =>
  }

  /** In every reachable state the functors queued so far are those begun, then the rest of the batch,
      then those pending: none is lost, none is begun twice, and they are begun in queueing order. */
  lemma {:induction false} ExactlyOnceInOrder(ids: set<ThreadId>, r: Run, i: nat)
    requires IsRun(ids, r) && i < |r.states|
    ensures QueueInv(r.states[i])
  {
    hide Next, Enabled;
    if i > 0 {
      ExactlyOnceInOrder(ids, r, i - 1);
      QueueStep(r.states[i - 1], r.acts[i - 1]);
    }
  }

  function RunNexts(acts: seq<Action>): nat {
    if acts == [] then 0
    else RunNexts(acts[..|acts| - 1]) + if acts[|acts| - 1].RunNext? then 1 else 0
  }

  lemma BatchStep(s: State, a: Action)
    requires QueueInv(s) && Enabled(s, a) && s.pc.Running? && Next(s, a).pc.Running?
    ensures |Next(s, a).batch| + (if a.RunNext? then 1 else 0) == |s.batch|
  {
  }

  /** While a batch runs, however much its functors and other threads queue, the functors begun and those
      left in the batch are together as many as it had: every batch terminates. */
  lemma {:induction false} BatchIsBounded(ids: set<ThreadId>, r: Run, i: nat, j: nat)
    requires IsRun(ids, r) && i <= j < |r.states|
    requires forall k :: i <= k <= j ==> r.states[k].pc.Running?
    ensures RunNexts(r.acts[i..j]) + |r.states[j].batch| == |r.states[i].batch|
    decreases j
  {
    hide Next, Enabled;
    if i < j {
      BatchIsBounded(ids, r, i, j - 1);
      ExactlyOnceInOrder(ids, r, j - 1);
      BatchStep(r.states[j - 1], r.acts[j - 1]);
      assert r.acts[i..j][..j - i - 1] == r.acts[i..j - 1];
    }
  }

  // ---------------------------------------------------------------- submission order

  /** What `sender` handed over through runInLoop, among `tasks`. */
  function Submissions(tasks: seq<Task>, sender: Sender): seq<Task> {
    if tasks == [] then []
    else
      var last := tasks[|tasks| - 1];
      Submissions(tasks[..|tasks| - 1], sender) + if last.sender == sender && last.viaRun then [last] else []
  }

  lemma SubmissionsSnoc(tasks: seq<Task>, t: Task, sender: Sender)
    ensures Submissions(tasks + [t], sender)
         == Submissions(tasks, sender) + if t.sender == sender && t.viaRun then [t] else []
  {
    assert (tasks + [t])[..|tasks|] == tasks;
  }

  lemma {:induction false} SubmissionsConcat(a: seq<Task>, b: seq<Task>, sender: Sender)
    ensures Submissions(a + b, sender) == Submissions(a, sender) + Submissions(b, sender)
    decreases |b|
  {
    if b == [] {
      assert a + b == a;
    } else {
      var n := |b| - 1;
      SubmissionsConcat(a, b[..n], sender);
      assert a + b == (a + b[..n]) + [b[n]] && b == b[..n] + [b[n]];
      SubmissionsSnoc(a + b[..n], b[n], sender);
    }
  }

  /** What a thread submitted is what has begun of it, in the same order, then what still waits; of the
      loop's own submissions none waits. */
  predicate OrderInv(s: State, sender: Sender) {
    && Submissions(s.submitted, sender) == Submissions(s.ran, sender) + Submissions(s.batch + s.pending, sender)
    && (sender.LoopThread? ==> Submissions(s.batch + s.pending, sender) == [])
  }

  lemma SubmissionsHead(tasks: seq<Task>, sender: Sender)
    requires tasks != []
    ensures Submissions(tasks, sender)
         == (if tasks[0].sender == sender && tasks[0].viaRun then [tasks[0]] else []) + Submissions(tasks[1..], sender)
  {
    SubmissionsOne(tasks[0], sender);
    SubmissionsConcat([tasks[0]], tasks[1..], sender);
    hide Submissions;
    assert [tasks[0]] + tasks[1..] == tasks;
  }

  lemma SubmissionsOne(t: Task, sender: Sender)
    ensures Submissions([t], sender) == if t.sender == sender && t.viaRun then [t] else []
  {
    assert [t][..0] == [];
  }

  lemma SwapKeepsOrder(s: State, sender: Sender)
    requires QueueInv(s) && OrderInv(s, sender) && Enabled(s, Swap)
    ensures OrderInv(Next(s, Swap), sender)
  {
    hide Submissions;
    assert s.pending + [] == s.batch + s.pending;
  }

  lemma RunNextKeepsOrder(s: State, sender: Sender)
    requires OrderInv(s, sender) && Enabled(s, RunNext)
    ensures OrderInv(Next(s, RunNext), sender)
  {
    hide Submissions;
    var t, waiting := s.batch[0], s.batch + s.pending;
    SubmissionsSnoc(s.ran, t, sender);
    SubmissionsHead(waiting, sender);
    assert waiting[0] == t && waiting[1..] == s.batch[1..] + s.pending;
  }

  lemma OrderStep(s: State, a: Action, sender: Sender)
    requires QueueInv(s) && OrderInv(s, sender) && Enabled(s, a)
    ensures OrderInv(Next(s, a), sender)
  {
    hide Submissions;
    match a
    case Push(_, task) =>
      SubmissionsSnoc(s.submitted, task, sender);
      SubmissionsSnoc(s.batch + s.pending, task, sender);
      assert s.batch + (s.pending + [task]) == (s.batch + s.pending) + [task];
    case OwnPush(task) =>
      SubmissionsSnoc(s.batch + s.pending, task, sender);
      assert s.batch + (s.pending + [task]) == (s.batch + s.pending) + [task];
    case OwnRun(task) =>
      SubmissionsSnoc(s.submitted, task, sender);
      SubmissionsSnoc(s.ran, task, sender);
    case Swap => SwapKeepsOrder(s, sender);
    case RunNext => RunNextKeepsOrder(s, sender);
    case _ =>
  }

  lemma {:induction false} OrderHolds(ids: set<ThreadId>, r: Run, i: nat, sender: Sender)
    requires IsRun(ids, r) && i < |r.states|
    ensures OrderInv(r.states[i], sender)
  {
    hide Next, Enabled;
    if i > 0 {
      OrderHolds(ids, r, i - 1, sender);
      ExactlyOnceInOrder(ids, r, i - 1);
      OrderStep(r.states[i - 1], r.acts[i - 1], sender);
    }
  }

  /** Each thread's runInLoop submissions begin in submission order, in every interleaving; those of
      the loop's own thread have all begun. */
  lemma SubmissionOrder(ids: set<ThreadId>, r: Run, i: nat, sender: Sender)
    requires IsRun(ids, r) && i < |r.states|
    ensures Submissions(r.states[i].ran, sender) <= Submissions(r.states[i].submitted, sender)
    ensures sender.LoopThread? ==> Submissions(r.states[i].ran, sender) == Submissions(r.states[i].submitted, sender)
  {
    OrderHolds(ids, r, i, sender);
  }

  // ---------------------------------------------------------------- no lost wake-up

  /** Waiting in poll with functors pending, the loop has a wake-up written or about to be written. */
  predicate Attended(s: State) {
    s.pc.AtPoll? && s.pending != [] ==> s.counter > 0 || WakeComing(s)
  }

  /** Before the loop starts: what is pending has a wake-up, written or coming. */
  predicate LaunchSafe(s: State) {
    s.pending == [] || s.counter > 0 || WakeComing(s)
  }

  predicate WakeInv(s: State) {
    && QueueInv(s) && !s.pc.NotStarted?
    && (s.pc.Running? || s.pc.AtTest? || s.pc.AtPoll? ==>
          s.pending == [] || s.counter > 0 || WakeComing(s) || (s.ownPushed && s.calling))
  }

  lemma WakeStep(s: State, a: Action)
    requires WakeInv(s) && Enabled(s, a)
    ensures WakeInv(Next(s, a))
  {
    QueueStep(s, a);
    var t := Next(s, a);
    match a
    case Push(id, _) => assert t.threads[id].Pushed?;
    case SetQuit(id) =>
      if WakeComing(s) {
        var other :| other in s.threads && s.threads[other].Pushed?;
        assert t.threads[other].Pushed?;
      }
    case _ => assert t.threads == s.threads ==> (WakeComing(t) <==> WakeComing(s));
  }

  lemma {:induction false} WakeHolds(start: State, r: Run, i: nat)
    requires IsRunFrom(start, r) && i < |r.states| && WakeInv(start)
    ensures WakeInv(r.states[i])
  {
    hide Next, Enabled;
    if i > 0 {
      WakeHolds(start, r, i - 1);
      WakeStep(r.states[i - 1], r.acts[i - 1]);
    }
  }

  ghost predicate NeverForgotten(start: State) {
    forall r: Run, i {:trigger IsRunFrom(start, r), r.states[i]} ::
      IsRunFrom(start, r) && 0 <= i < |r.states| ==> Attended(r.states[i])
  }

  /** No wake-up is lost: once the loop begins, every continuation, with any number of threads, keeps
      pending functors attended if and only if what was pending before had a wake-up. */
  lemma NoLostWakeup(ids: set<ThreadId>, r: Run, b: nat)
    requires IsRun(ids, r) && b < |r.acts| && r.acts[b].Begin?
    ensures NeverForgotten(r.states[b + 1]) <==> LaunchSafe(r.states[b])
  {
    var s, begun := r.states[b], r.states[b + 1];
    assert begun == Next(s, Begin) && Enabled(s, Begin) by { assert r.acts[b] == Begin; }
    ExactlyOnceInOrder(ids, r, b);
    if LaunchSafe(s) {
      assert WakeInv(begun) by { assert WakeComing(begun) <==> WakeComing(s); }
      forall c: Run, i | IsRunFrom(begun, c) && 0 <= i < |c.states|
        ensures Attended(c.states[i])
      {
        WakeHolds(begun, c, i);
      }
    } else {
      var waiting := Next(begun, Test);
      assert !WakeComing(waiting) by { assert waiting.threads == s.threads; }
      var c := Run([begun, waiting], [Test]);
      assert IsRunFrom(begun, c) && !Attended(c.states[1]);
    }
  }

  /** What other threads queue before the loop begins is always safe; only functors the loop's own
      thread queued by then can be without a wake-up. */
  lemma {:induction false} LaunchSafeUnlessOwnTasks(ids: set<ThreadId>, r: Run, i: nat)
    requires IsRun(ids, r) && i < |r.states| && r.states[i].pc.NotStarted?
    requires forall k :: 0 <= k < i ==> !r.acts[k].OwnPush?
    ensures LaunchSafe(r.states[i])
  {
    hide Next, Enabled;
    if i > 0 {
      var s, a := r.states[i - 1], r.acts[i - 1];
      BeforeBegin(s, a);
      LaunchSafeUnlessOwnTasks(ids, r, i - 1);
      ExactlyOnceInOrder(ids, r, i - 1);
      LaunchSafeStep(s, a);
    }
  }

  lemma BeforeBegin(s: State, a: Action)
    requires Enabled(s, a) && Next(s, a).pc.NotStarted?
    ensures s.pc.NotStarted?
  {
  }

  lemma LaunchSafeStep(s: State, a: Action)
    requires QueueInv(s) && LaunchSafe(s) && Enabled(s, a) && s.pc.NotStarted? && !a.OwnPush?
    ensures LaunchSafe(Next(s, a))
  {
    var t := Next(s, a);
    match a
    case Push(id, _) => assert t.threads[id].Pushed?;
    case SetQuit(id) =>
      if WakeComing(s) {
        var other :| other in s.threads && s.threads[other].Pushed?;
        assert t.threads[other].Pushed?;
      }
    case OwnWakeTest => assert WakeComing(t) <==> WakeComing(s);
    case OwnRun(_) => assert WakeComing(t) <==> WakeComing(s);
    case OwnQuit => assert WakeComing(t) <==> WakeComing(s);
    case Begin => assert WakeComing(t) <==> WakeComing(s);
    case _ =>
  }

  /** One functor queued by the loop's own thread before it begins: the loop then waits in poll with
      that functor pending and no wake-up on its way. */
  lemma EarlyOwnTaskIsForgotten(task: Task)
    requires task.sender.LoopThread? && !task.viaRun
    ensures exists r :: IsRun({}, r) && !Attended(r.states[|r.states| - 1])
  {
    var s0 := Initial({});
    var s1 := Next(s0, OwnPush(task));
    var s2 := Next(s1, OwnWakeTest);
    var s3 := Next(s2, Begin);
    var s4 := Next(s3, Test);
    var r := Run([s0, s1, s2, s3, s4], [OwnPush(task), OwnWakeTest, Begin, Test]);
    assert IsRun({}, r) && !Attended(r.states[|r.states| - 1]);
  }

  /** How far the pass that began in poll with `queued` enqueued has brought those functors: still before
      the swap, or in the batch that the swap took over. */
  predicate Covers(queued: seq<Task>, s: State) {
    && QueueInv(s) && queued <= s.enqueued
    && (s.pc.AtPoll? || s.pc.Handling? || s.pc.Starting? || (s.pc.Running? && queued <= s.executed + s.batch))
  }

  lemma CoversStep(queued: seq<Task>, s: State, a: Action)
    requires Covers(queued, s) && Enabled(s, a)
    ensures a.EndPending? ==> queued <= Next(s, a).executed
    ensures !a.EndPending? ==> Covers(queued, Next(s, a))
  {
    QueueStep(s, a);
    match a
    case Swap => assert s.executed + s.pending == s.enqueued by { assert s.batch == []; }
    case RunNext => assert (s.executed + [s.batch[0]]) + s.batch[1..] == s.executed + s.batch;
    case EndPending => assert s.executed + s.batch == s.executed;
    case _ =>
  }

  lemma {:induction false} CoversHolds(start: State, r: Run, i: nat)
    requires QueueInv(start) && start.pc.AtPoll? && IsRunFrom(start, r) && i < |r.states|
    requires forall k :: 0 <= k < i ==> !r.acts[k].EndPending?
    ensures Covers(start.enqueued, r.states[i])
  {
    hide Next, Enabled;
    if i > 0 {
      CoversHolds(start, r, i - 1);
      CoversStep(start.enqueued, r.states[i - 1], r.acts[i - 1]);
    }
  }

  /** In every interleaving, however the loop comes back from poll and whatever else happens, the first
      batch it completes after that has begun everything enqueued when it went to poll. */
  lemma PassDrains(ids: set<ThreadId>, r: Run, i: nat, c: Run, j: nat)
    requires IsRun(ids, r) && i < |r.states| && r.states[i].pc.AtPoll? && IsRunFrom(r.states[i], c)
    requires j < |c.acts| && c.acts[j].EndPending? && forall k :: 0 <= k < j ==> !c.acts[k].EndPending?
    ensures r.states[i].enqueued <= c.states[j + 1].executed
  {
    hide Next, Enabled;
    ExactlyOnceInOrder(ids, r, i);
    CoversHolds(r.states[i], c, j);
    CoversStep(r.states[i].enqueued, c.states[j], c.acts[j]);
  }

  // ---------------------------------------------------------------- prompt quit

  predicate QuitInv(s: State) {
    s.pc.AtPoll? && s.quit ==> s.counter > 0 || QuitWakeComing(s)
  }

  lemma QuitStep(s: State, a: Action)
    requires QuitInv(s) && Enabled(s, a)
    ensures QuitInv(Next(s, a))
  {
    var t := Next(s, a);
    match a
    case SetQuit(id) => assert t.threads[id].QuitSet?;
    case Push(id, _) =>
      if QuitWakeComing(s) {
        var other :| other in s.threads && s.threads[other].QuitSet?;
        assert t.threads[other].QuitSet?;
      }
    case _ => assert t.threads == s.threads ==> (QuitWakeComing(t) <==> QuitWakeComing(s));
  }

  /** A quit in force never leaves the loop waiting in poll without a wake-up written or coming. */
  lemma {:induction false} QuitIsAttended(ids: set<ThreadId>, r: Run, i: nat)
    requires IsRun(ids, r) && i < |r.states|
    ensures QuitInv(r.states[i])
  {
    hide Next, Enabled;
    if i > 0 {
      QuitIsAttended(ids, r, i - 1);
      QuitStep(r.states[i - 1], r.acts[i - 1]);
    }
  }

  lemma NoPollAfterQuitStep(s: State, a: Action)
    requires Enabled(s, a) && !s.pc.NotStarted? && s.quit
    ensures !Next(s, a).pc.NotStarted? && Next(s, a).quit && Next(s, a).polls == s.polls
  {
  }

  /** Once quit is set on a begun loop it never goes to poll again: at most the iteration in progress
      is completed. */
  lemma {:induction false} QuitIsPrompt(ids: set<ThreadId>, r: Run, i: nat, j: nat)
    requires IsRun(ids, r) && i <= j < |r.states| && !r.states[i].pc.NotStarted? && r.states[i].quit
    ensures !r.states[j].pc.NotStarted? && r.states[j].quit && r.states[j].polls == r.states[i].polls
    decreases j
  {
    hide Next, Enabled;
    if i < j {
      QuitIsPrompt(ids, r, i, j - 1);
      NoPollAfterQuitStep(r.states[j - 1], r.acts[j - 1]);
    }
  }

  predicate IsQuit(a: Action) {
    a.SetQuit? || a.OwnQuit?
  }

  lemma QuitChange(s: State, a: Action)
    requires Enabled(s, a)
    ensures Next(s, a).quit <==> IsQuit(a) || (s.quit && !a.Begin?)
    ensures a.Begin? ==> s.pc.NotStarted?
    ensures !s.pc.NotStarted? || a.Begin? ==> !Next(s, a).pc.NotStarted?
  {
  }

  /** A quit is in force on a begun loop if and only if it was issued after the loop cleared quit_. */
  lemma {:induction false} QuitCountsOnlyAfterBegin(ids: set<ThreadId>, r: Run, b: nat, j: nat)
    requires IsRun(ids, r) && b < j < |r.states| && r.acts[b].Begin?
    ensures r.states[j].quit <==> exists k :: b < k < j && IsQuit(r.acts[k])
    ensures !r.states[j].pc.NotStarted?
    decreases j
  {
    hide Next, Enabled, IsQuit;
    QuitChange(r.states[j - 1], r.acts[j - 1]);
    if b + 1 == j {
      assert !IsQuit(r.acts[b]) by { assert r.acts[b] == Begin; NotAQuit(); }
    } else {
      QuitCountsOnlyAfterBegin(ids, r, b, j - 1);
    }
  }

  lemma NotAQuit()
    ensures !IsQuit(Begin)
  {
  }

  // ---------------------------------------------------------------- the eventfd

  /** The eventfd is written: by another thread after a push or a quit, or by the loop's own thread after a push
      during a batch. */
  predicate Writes(s: State, a: Action) {
    a.Wake? || (a.OwnWakeTest? && s.calling)
  }

  /** The loop handles its own channel, whose handler reads the eventfd. */
  predicate Reads(s: State, a: Action) {
    a.HandleNext? && s.active != [] && s.active[0].WakeupFd?
  }

  /** How often the eventfd was written in the first `n` steps since it was last read. */
  function WritesSinceRead(r: Run, n: nat): nat
    requires n <= |r.acts| < |r.states|
  {
    if n == 0 then 0
    else if Reads(r.states[n - 1], r.acts[n - 1]) then 0
    else WritesSinceRead(r, n - 1) + if Writes(r.states[n - 1], r.acts[n - 1]) then 1 else 0
  }

  lemma CounterStep(s: State, a: Action)
    requires Enabled(s, a)
    ensures Next(s, a).counter ==
            if Reads(s, a) then 0 else if Writes(s, a) && s.counter < COUNTER_MAX then s.counter + 1 else s.counter
  {
  }

  /** In every run the counter is the number of writes since the last read, as far as it goes. */
  lemma {:induction false} CounterCountsWrites(ids: set<ThreadId>, r: Run, i: nat)
    requires IsRun(ids, r) && i <= |r.acts| < |r.states|
    ensures r.states[i].counter == Min(WritesSinceRead(r, i), COUNTER_MAX)
  {
    hide Next, Enabled, Reads, Writes;
    if i > 0 {
      CounterCountsWrites(ids, r, i - 1);
      CounterStep(r.states[i - 1], r.acts[i - 1]);
    }
  }
}
