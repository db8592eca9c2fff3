/**
 muduo/EventLoop.cpp as an object: its two flags, its functor queue and its eventfd.  The object
 carries the run of the hand-off protocol it has performed, so everything proved about runs in
 module LoopProtocol holds of it at every method boundary.
 */
module EventLoop {
  import opened LoopProtocol

  /** A call of the loop's public API made by user code, or by another thread meanwhile. */
  datatype Call = CallRunInLoop(task: Task) | CallQueueInLoop(task: Task) | CallQuit(caller: Sender)

  /** Calls come from the loop's thread or from a known one, and queue what they say they queue. */
  predicate Allowed(ids: set<ThreadId>, call: Call) {
    match call
    case CallRunInLoop(task) => task.viaRun && (task.sender.Other? ==> task.sender.id in ids)
    case CallQueueInLoop(task) => !task.viaRun && (task.sender.Other? ==> task.sender.id in ids)
    case CallQuit(caller) => caller.Other? ==> caller.id in ids
  }

  predicate AllAllowed(ids: set<ThreadId>, scripts: seq<seq<Call>>) {
    forall i, j :: 0 <= i < |scripts| && 0 <= j < |scripts[i]| ==> Allowed(ids, scripts[i][j])
  }

  /** One pass of EventLoop::loop as its surroundings decide it: the channels the kernel reports, what
      the handler of each does, and what each functor of the batch does. */
  datatype Iteration = Iteration(reported: seq<Source>, handlers: seq<seq<Call>>, functors: seq<seq<Call>>)

  /** What a list of calls leaves in the queue. */
  function Queued(calls: seq<Call>): seq<Task> {
    if calls == [] then []
    else
      var last := calls[|calls| - 1];
      Queued(calls[..|calls| - 1])
      + match last
        case CallQueueInLoop(task) => [task]
        case CallRunInLoop(task) => if task.sender.LoopThread? then [] else [task]
        case CallQuit(_) => []
  }

  function QueuedBy(scripts: seq<seq<Call>>, n: nat): seq<Task>
  {
    if n == 0 then [] else QueuedBy(scripts, n - 1) + if n <= |scripts| then Queued(scripts[n - 1]) else []
  }

  // ---------------------------------------------------------------- what calls, handlers and functors do

  /** What a loop shows: its queue, its eventfd, its quit flag, and the functors begun so far, from batches and
      in all. */
  datatype View = View(pending: seq<Task>, counter: nat, quit: bool, executed: seq<Task>, ran: seq<Task>)

  /** One call; `calling` while the loop runs a batch. */
  function AfterCall(v: View, call: Call, calling: bool): View {
    match call
    case CallRunInLoop(task) =>
      if task.sender.LoopThread? then v.(ran := v.ran + [task])
      else v.(pending := v.pending + [task], counter := Written(v.counter))
    case CallQueueInLoop(task) =>
      var wakes := task.sender.Other? || calling;
      v.(pending := v.pending + [task], counter := if wakes then Written(v.counter) else v.counter)
    case CallQuit(caller) => v.(quit := true, counter := if caller.Other? then Written(v.counter) else v.counter)
  }

  function AfterCalls(v: View, calls: seq<Call>, calling: bool): View {
    if calls == [] then v
    else AfterCall(AfterCalls(v, calls[..|calls| - 1], calling), calls[|calls| - 1], calling)
  }

  /** The first `n` active channels are handled. */
  function AfterActive(v: View, active: seq<Source>, handlers: seq<seq<Call>>, n: nat): View
    requires n <= |active|
  {
    if n == 0 then v
    else
      var before := AfterActive(v, active, handlers, n - 1);
      if active[n - 1].WakeupFd? then before.(counter := 0)
      else if n <= |handlers| then AfterCalls(before, handlers[n - 1], false)
      else before
  }

  /** The first `n` functors of a batch have run. */
  function AfterBatch(v: View, functors: seq<Task>, scripts: seq<seq<Call>>, n: nat): View
    requires n <= |functors|
  {
    if n == 0 then v
    else
      var before := AfterBatch(v, functors, scripts, n - 1);
      var begun := before.(executed := before.executed + [functors[n - 1]], ran := before.ran + [functors[n - 1]]);
      if n <= |scripts| then AfterCalls(begun, scripts[n - 1], true) else begun
  }

  /** The eventfd is reported only when it has been written. */
  function Polled(v: View, pass: Iteration): seq<Source> {
    if v.counter > 0 || WakeupFd !in pass.reported then pass.reported else []
  }

  function AfterPass(v: View, pass: Iteration): View {
    var active := Polled(v, pass);
    var handled := AfterActive(v, active, pass.handlers, |active|);
    AfterBatch(handled.(pending := []), handled.pending, pass.functors, |handled.pending|)
  }

  /** The first `n` passes, or fewer when quit_ is found set before. */
  function AfterPasses(v: View, passes: seq<Iteration>, n: nat): View
    requires n <= |passes|
  {
    if n == 0 then v
    else
      var before := AfterPasses(v, passes, n - 1);
      if before.quit then before else AfterPass(before, passes[n - 1])
  }

  /** The runInLoop calls made on the loop's own thread: they run at once. */
  function Inline(calls: seq<Call>): seq<Task> {
    if calls == [] then []
    else
      var last := calls[|calls| - 1];
      Inline(calls[..|calls| - 1])
      + if last.CallRunInLoop? && last.task.sender.LoopThread? then [last.task] else []
  }

  predicate Quits(calls: seq<Call>) {
    exists i :: 0 <= i < |calls| && calls[i].CallQuit?
  }

  /** What calls leave in the queue, what they run at once, and whether they quit. */
  lemma {:induction false} CallsDo(v: View, calls: seq<Call>, calling: bool)
    ensures var w := AfterCalls(v, calls, calling);
            && w.pending == v.pending + Queued(calls) && w.ran == v.ran + Inline(calls) && w.executed == v.executed
            && (w.quit <==> v.quit || Quits(calls))
  {
    if calls != [] {
      var n := |calls| - 1;
      CallsDo(v, calls[..n], calling);
      QuitsGrows(calls);
    }
  }

  lemma QuitsGrows(calls: seq<Call>)
    requires calls != []
    ensures Quits(calls) <==> Quits(calls[..|calls| - 1]) || calls[|calls| - 1].CallQuit?
  {
    var n := |calls| - 1;
    if Quits(calls) && !calls[n].CallQuit? {
      var i :| 0 <= i < |calls| && calls[i].CallQuit?;
      assert calls[..n][i].CallQuit?;
    }
    if Quits(calls[..n]) {
      var i :| 0 <= i < n && calls[..n][i].CallQuit?;
      assert calls[i].CallQuit?;
    }
  }

  /** The calls that the handlers of the first `n` active channels make, in order. */
  function CallsOf(active: seq<Source>, handlers: seq<seq<Call>>, n: nat): seq<Call>
    requires n <= |active|
  {
    if n == 0 then []
    else CallsOf(active, handlers, n - 1) + if active[n - 1].OtherFd? && n <= |handlers| then handlers[n - 1] else []
  }

  lemma CallsSnoc(a: seq<Call>, c: Call)
    ensures Queued(a + [c]) == Queued(a) + Queued([c]) && Inline(a + [c]) == Inline(a) + Inline([c])
    ensures Quits(a + [c]) <==> Quits(a) || Quits([c])
  {
    assert (a + [c])[..|a|] == a && [c][..0] == [];
    QuitsGrows(a + [c]);
    QuitsGrows([c]);
    hide Quits;
  }

  lemma {:induction false} QueuedConcat(a: seq<Call>, b: seq<Call>)
    ensures Queued(a + b) == Queued(a) + Queued(b)
    decreases |b|
  {
    if b == [] {
      assert a + b == a;
      NoCalls();
    } else {
      hide Queued, Inline, Quits;
      var init, c := b[..|b| - 1], b[|b| - 1];
      QueuedConcat(a, init);
      CallsSnoc(a + init, c);
      CallsSnoc(init, c);
      assert a + b == (a + init) + [c] && b == init + [c];
      assert (Queued(a) + Queued(init)) + Queued([c]) == Queued(a) + (Queued(init) + Queued([c]));
    }
  }

  lemma {:induction false} InlineConcat(a: seq<Call>, b: seq<Call>)
    ensures Inline(a + b) == Inline(a) + Inline(b)
    decreases |b|
  {
    if b == [] {
      assert a + b == a;
      NoCalls();
    } else {
      hide Queued, Inline, Quits;
      var init, c := b[..|b| - 1], b[|b| - 1];
      InlineConcat(a, init);
      CallsSnoc(a + init, c);
      CallsSnoc(init, c);
      assert a + b == (a + init) + [c] && b == init + [c];
      assert (Inline(a) + Inline(init)) + Inline([c]) == Inline(a) + (Inline(init) + Inline([c]));
    }
  }

  lemma {:induction false} QuitsConcat(a: seq<Call>, b: seq<Call>)
    ensures Quits(a + b) <==> Quits(a) || Quits(b)
    decreases |b|
  {
    if b == [] {
      assert a + b == a;
      NoCalls();
    } else {
      hide Queued, Inline, Quits;
      var init, c := b[..|b| - 1], b[|b| - 1];
      QuitsConcat(a, init);
      CallsSnoc(a + init, c);
      CallsSnoc(init, c);
      assert a + b == (a + init) + [c] && b == init + [c];
    }
  }

  /** Every active channel but the eventfd's own has its handler run, each once and in order. */
  lemma {:induction false} HandlersDo(v: View, active: seq<Source>, handlers: seq<seq<Call>>, n: nat)
    requires n <= |active|
    ensures var w, calls := AfterActive(v, active, handlers, n), CallsOf(active, handlers, n);
            && w.pending == v.pending + Queued(calls) && w.ran == v.ran + Inline(calls) && w.executed == v.executed
            && (w.quit <==> v.quit || Quits(calls))
  {
    hide Queued, Inline, Quits, AfterCalls;
    if n > 0 {
      HandlersDo(v, active, handlers, n - 1);
      var before, calls := AfterActive(v, active, handlers, n - 1), CallsOf(active, handlers, n - 1);
      if active[n - 1].OtherFd? && n <= |handlers| {
        CallsDo(before, handlers[n - 1], false);
        QueuedConcat(calls, handlers[n - 1]);
        InlineConcat(calls, handlers[n - 1]);
        QuitsConcat(calls, handlers[n - 1]);
        var w := AfterActive(v, active, handlers, n);
        assert w.pending == v.pending + (Queued(calls) + Queued(handlers[n - 1]));
        assert w.ran == v.ran + (Inline(calls) + Inline(handlers[n - 1]));
      } else {
        assert calls + [] == calls;
      }
    } else {
      NoCalls();
    }
  }

  lemma NoCalls()
    ensures Queued([]) == [] && Inline([]) == [] && !Quits([])
  {
  }

  /** The functors of a batch begin one after the other, each followed by what it runs at once. */
  function RanBy(functors: seq<Task>, scripts: seq<seq<Call>>, n: nat): seq<Task>
    requires n <= |functors|
  {
    if n == 0 then []
    else RanBy(functors, scripts, n - 1) + [functors[n - 1]] + if n <= |scripts| then Inline(scripts[n - 1]) else []
  }

  /** One of the first `n` scripts quits. */
  predicate SomeQuits(scripts: seq<seq<Call>>, n: nat) {
    exists i :: 0 <= i < n && i < |scripts| && Quits(scripts[i])
  }

  lemma {:induction false} FunctorsDo(v: View, functors: seq<Task>, scripts: seq<seq<Call>>, n: nat)
    requires n <= |functors|
    ensures var w := AfterBatch(v, functors, scripts, n);
            && w.executed == v.executed + functors[..n] && w.ran == v.ran + RanBy(functors, scripts, n)
            && w.pending == v.pending + QueuedBy(scripts, n)
            && (w.quit <==> v.quit || SomeQuits(scripts, n))
  {
    hide Queued, Inline, Quits, AfterCalls;
    if n > 0 {
      FunctorsDo(v, functors, scripts, n - 1);
      var before := AfterBatch(v, functors, scripts, n - 1);
      var f := functors[n - 1];
      assert v.executed + functors[..n - 1] + [f] == v.executed + functors[..n];
      if n <= |scripts| {
        CallsDo(before.(executed := before.executed + [f], ran := before.ran + [f]), scripts[n - 1], true);
      }
      var w := AfterBatch(v, functors, scripts, n);
      assert w.ran == v.ran + RanBy(functors, scripts, n);
      assert w.pending == v.pending + QueuedBy(scripts, n);
    }
  }

  /** The loop's thread is where it was and has begun nothing from its batch. */
  predicate SamePlace(s: State, t: State) {
    t.pc == s.pc && t.active == s.active && t.batch == s.batch && t.executed == s.executed && t.polls == s.polls
  }

  class EventLoop {
    ghost const ids: set<ThreadId>
    var quit: bool
    var callingPendingFunctors: bool
    var pendingFunctors: seq<Task>
    var weakupCounter: nat
    ghost var run: Run

    ghost function Now(): State
      reads this
      requires |run.states| == |run.acts| + 1
    {
      run.states[|run.acts|]
    }

    /** The fields are those of the protocol state that the run so far has reached. */
    ghost predicate Valid()
      reads this
    {
      && |run.states| == |run.acts| + 1 && IsRun(ids, run)
      && Now().quit == quit && Now().calling == callingPendingFunctors
      && Now().pending == pendingFunctors && Now().counter == weakupCounter
      && Now().threads.Keys == ids
    }

    /** No thread is between a push or a quit and its wake-up: the method boundary of every caller. */
    ghost predicate Quiet()
      reads this
      requires |run.states| == |run.acts| + 1
    {
      !Now().ownPushed && forall id :: id in Now().threads ==> Now().threads[id].Resting?
    }

    ghost function Shows(): View
      reads this
      requires |run.states| == |run.acts| + 1
    {
      View(pendingFunctors, weakupCounter, quit, Now().executed, Now().ran)
    }

    constructor (ids: set<ThreadId>)
      ensures this.ids == ids && Valid() && Quiet() && run == Run([Initial(ids)], [])
    {
      this.ids := ids;
      quit, callingPendingFunctors, pendingFunctors, weakupCounter := false, false, [], 0;
      run := Run([Initial(ids)], []);
    }

    ghost method Do(a: Action)
      requires IsRun(ids, run) && Enabled(Now(), a)
      modifies this`run
      ensures IsRun(ids, run) && Now() == Next(old(Now()), a)
      ensures run.acts == old(run.acts) + [a] && run.states == old(run.states) + [Now()]
    {
      hide Next, Enabled;
      run := Run(run.states + [Next(Now(), a)], run.acts + [a]);
    }

    method Weakup()
      modifies this`weakupCounter
      ensures weakupCounter == Written(old(weakupCounter))
    {
      if weakupCounter < COUNTER_MAX {
        weakupCounter := weakupCounter + 1;
      }
    }

    method QueueInLoop(task: Task)
      requires Valid() && Quiet() && (task.sender.LoopThread? ==> InUserCode(Now()) && !task.viaRun)
      requires task.sender.Other? ==> task.sender.id in ids
      modifies this`pendingFunctors, this`weakupCounter, this`run
      ensures Valid() && Quiet() && old(run.acts) < run.acts
      ensures pendingFunctors == old(pendingFunctors) + [task]
      ensures weakupCounter ==
              if task.sender.Other? || callingPendingFunctors then Written(old(weakupCounter)) else old(weakupCounter)
      ensures SamePlace(old(Now()), Now()) && Now().ran == old(Now().ran)
    {
      hide IsRun;
      pendingFunctors := pendingFunctors + [task];
      Do(if task.sender.Other? then Push(task.sender.id, task) else OwnPush(task));
      if task.sender.Other? || callingPendingFunctors {
        Weakup();
      }
      Do(if task.sender.Other? then Wake(task.sender.id) else OwnWakeTest);
    }

    method RunInLoop(task: Task)
      requires Valid() && Quiet() && (task.sender.LoopThread? ==> InUserCode(Now())) && task.viaRun
      requires task.sender.Other? ==> task.sender.id in ids
      modifies this`pendingFunctors, this`weakupCounter, this`run
      ensures Valid() && Quiet() && old(run.acts) < run.acts
      ensures pendingFunctors == old(pendingFunctors) + if task.sender.LoopThread? then [] else [task]
      ensures SamePlace(old(Now()), Now())
      ensures Shows() == AfterCall(old(Shows()), CallRunInLoop(task), callingPendingFunctors)
    {
      hide IsRun;
      if task.sender.LoopThread? {
        Do(OwnRun(task));
      } else {
        QueueInLoop(task);
      }
    }

    method Quit(caller: Sender)
      requires Valid() && Quiet() && (caller.LoopThread? ==> InUserCode(Now()))
      requires caller.Other? ==> caller.id in ids
      modifies this`quit, this`weakupCounter, this`run
      ensures Valid() && Quiet() && old(run.acts) < run.acts
      ensures quit && weakupCounter == if caller.Other? then Written(old(weakupCounter)) else old(weakupCounter)
      ensures SamePlace(old(Now()), Now()) && Now().ran == old(Now().ran)
    {
      hide IsRun;
      quit := true;
      Do(if caller.Other? then SetQuit(caller.id) else OwnQuit);
      if caller.Other? {
        Weakup();
        Do(Wake(caller.id));
      }
    }

    method HandleRead()
      modifies this`weakupCounter
      ensures weakupCounter == 0
    {
      weakupCounter := 0;
    }

    /** User code running on the loop's thread, in a handler or a functor. */
    method UserCode(calls: seq<Call>)
      requires Valid() && Quiet() && InUserCode(Now())
      requires forall i :: 0 <= i < |calls| ==> Allowed(ids, calls[i])
      modifies this`pendingFunctors, this`weakupCounter, this`quit, this`run
      ensures Valid() && Quiet() && old(run.acts) <= run.acts && SamePlace(old(Now()), Now())
      ensures Shows() == AfterCalls(old(Shows()), calls, callingPendingFunctors)
      ensures pendingFunctors == old(pendingFunctors) + Queued(calls) && Now().ran == old(Now().ran) + Inline(calls)
      ensures quit <==> old(quit) || Quits(calls)
    {
      hide IsRun;
      for i := 0 to |calls|
        invariant Valid() && Quiet() && old(run.acts) <= run.acts && SamePlace(old(Now()), Now())
        invariant Shows() == AfterCalls(old(Shows()), calls[..i], callingPendingFunctors)
      {
        assert calls[..i + 1][..i] == calls[..i];
        match calls[i]
        case CallRunInLoop(task) => RunInLoop(task);
        case CallQueueInLoop(task) => QueueInLoop(task);
        case CallQuit(caller) => Quit(caller);
      }
      assert calls[..|calls|] == calls;
      CallsDo(old(Shows()), calls, callingPendingFunctors);
    }

    /** Runs exactly the functors queued before the swap, in order; what they queue waits for the next
        pass.  `scripts[i]` is what the i-th functor does. */
    method DoPendingFunctors(scripts: seq<seq<Call>>)
      requires Valid() && Quiet() && Now().pc == Handling && Now().active == []
      requires AllAllowed(ids, scripts)
      modifies this`pendingFunctors, this`weakupCounter, this`quit, this`callingPendingFunctors, this`run
      ensures Valid() && Quiet() && old(run.acts) < run.acts && Now().pc == AtTest && !callingPendingFunctors
      ensures Shows() == AfterBatch(old(Shows()).(pending := []), old(pendingFunctors), scripts, |old(pendingFunctors)|)
      ensures Now().executed == old(Now().executed) + old(pendingFunctors)
      ensures Now().ran == old(Now().ran) + RanBy(old(pendingFunctors), scripts, |old(pendingFunctors)|)
      ensures pendingFunctors == QueuedBy(scripts, |old(pendingFunctors)|)
      ensures quit <==> old(quit) || SomeQuits(scripts, |old(pendingFunctors)|)
      ensures Now().polls == old(Now().polls)
    {
      hide IsRun;
      var functors := SwapOut();
      RunBatch(functors, scripts);
      callingPendingFunctors := false;
      Do(EndPending);
      FunctorsDo(old(Shows()).(pending := []), functors, scripts, |functors|);
      assert functors[..|functors|] == functors;
    }

    /** The locked part: the whole queue is taken over at once. */
    method SwapOut() returns (functors: seq<Task>)
      requires Valid() && Quiet() && Now().pc == Handling && Now().active == []
      modifies this`pendingFunctors, this`callingPendingFunctors, this`run
      ensures Valid() && Quiet() && old(run.acts) < run.acts && Now().pc == Running
      ensures functors == old(pendingFunctors) == Now().batch && Shows() == old(Shows()).(pending := [])
      ensures Now().polls == old(Now().polls) && callingPendingFunctors
    {
      hide IsRun;
      callingPendingFunctors := true;
      Do(StartPending);
      functors := pendingFunctors;
      pendingFunctors := [];
      Do(Swap);
    }

    ghost method BeginNext()
      requires Valid() && Quiet() && Now().pc == Running && Now().batch != []
      modifies this`run
      ensures Valid() && Quiet() && old(run.acts) < run.acts && Now().pc == Running
      ensures Now().batch == old(Now().batch)[1..]
      ensures var f := old(Now().batch)[0];
              Shows() == old(Shows()).(executed := old(Now().executed) + [f], ran := old(Now().ran) + [f])
      ensures Now().polls == old(Now().polls)
    {
      hide IsRun;
      Do(RunNext);
    }

    method RunBatch(functors: seq<Task>, scripts: seq<seq<Call>>)
      requires Valid() && Quiet() && Now().pc == Running && Now().batch == functors && callingPendingFunctors
      requires AllAllowed(ids, scripts)
      modifies this`pendingFunctors, this`weakupCounter, this`quit, this`run
      ensures Valid() && Quiet() && old(run.acts) <= run.acts && Now().pc == Running && Now().batch == []
      ensures Shows() == AfterBatch(old(Shows()), functors, scripts, |functors|)
      ensures Now().executed == old(Now().executed) + functors
      ensures Now().ran == old(Now().ran) + RanBy(functors, scripts, |functors|)
      ensures pendingFunctors == old(pendingFunctors) + QueuedBy(scripts, |functors|)
      ensures quit <==> old(quit) || SomeQuits(scripts, |functors|)
      ensures Now().polls == old(Now().polls)
    {
      hide IsRun, AfterCalls;
      for i := 0 to |functors|
        invariant Valid() && Quiet() && old(run.acts) <= run.acts && Now().pc == Running
        invariant Now().batch == functors[i..] && Now().polls == old(Now().polls)
        invariant Shows() == AfterBatch(old(Shows()), functors, scripts, i)
      {
        BeginNext();
        if i < |scripts| {
          UserCode(scripts[i]);
        }
      }
      FunctorsDo(old(Shows()), functors, scripts, |functors|);
      assert functors[..|functors|] == functors;
    }

    /** One handler after the other; the eventfd's own resets the counter. */
    method HandleActive(active: seq<Source>, handlers: seq<seq<Call>>)
      requires Valid() && Quiet() && Now().pc == Handling && Now().active == active && !callingPendingFunctors
      requires AllAllowed(ids, handlers)
      modifies this`pendingFunctors, this`weakupCounter, this`quit, this`run
      ensures Valid() && Quiet() && old(run.acts) <= run.acts && Now().pc == Handling && Now().active == []
      ensures Shows() == AfterActive(old(Shows()), active, handlers, |active|)
      ensures var calls := CallsOf(active, handlers, |active|);
              && pendingFunctors == old(pendingFunctors) + Queued(calls) && Now().ran == old(Now().ran) + Inline(calls)
              && (quit <==> old(quit) || Quits(calls))
      ensures Now().polls == old(Now().polls) && Now().executed == old(Now().executed)
    {
      hide IsRun, AfterCalls;
      for i := 0 to |active|
        invariant Valid() && Quiet() && old(run.acts) <= run.acts
        invariant Now().pc == Handling && Now().active == active[i..] && Now().polls == old(Now().polls)
        invariant Shows() == AfterActive(old(Shows()), active, handlers, i)
      {
        Do(HandleNext);
        if active[i] == WakeupFd {
          HandleRead();
        } else if i < |handlers| {
          UserCode(handlers[i]);
        }
      }
      HandlersDo(old(Shows()), active, handlers, |active|);
    }

    /** One pass: poll, the handlers of what it reports, the functors queued by then. */
    method Pass(pass: Iteration)
      requires Valid() && Quiet() && Now().pc == AtTest && !quit && !callingPendingFunctors
      requires AllAllowed(ids, pass.handlers) && AllAllowed(ids, pass.functors)
      modifies this`pendingFunctors, this`weakupCounter, this`quit, this`callingPendingFunctors, this`run
      ensures Valid() && Quiet() && old(run.acts) < run.acts && Now().pc == AtTest && !callingPendingFunctors
      ensures Now().polls == old(Now().polls) + 1
      ensures Shows() == AfterPass(old(Shows()), pass)
      ensures PassDoes(old(Shows()), pass, Shows())
    {
      hide IsRun, PassDoes, AfterActive, AfterBatch, CallsOf, Queued, Inline, Quits, SomeQuits, RanBy, QueuedBy;
      PassBegins(Shows(), pass);
      Do(Test);
      var active := if weakupCounter > 0 || WakeupFd !in pass.reported then pass.reported else [];
      Do(PollReturns(active));
      HandleActive(active, pass.handlers);
      DoPendingFunctors(pass.functors);
    }

    /** The loop, for as many passes as its surroundings provide.  It comes back before they are used up
        only when quit_ is set, and then it is stopped. */
    method Loop(passes: seq<Iteration>)
      requires Valid() && Quiet() && Now().pc == NotStarted && !callingPendingFunctors
      requires forall i :: 0 <= i < |passes| ==>
                 AllAllowed(ids, passes[i].handlers) && AllAllowed(ids, passes[i].functors)
      modifies this`pendingFunctors, this`weakupCounter, this`quit, this`callingPendingFunctors, this`run
      ensures Valid() && Quiet() && old(run.acts) < run.acts
      ensures quit ==> Now().pc == Stopped
      ensures !quit ==> Now().pc == AtTest && Now().polls == old(Now().polls) + |passes|
      ensures Shows() == AfterPasses(old(Shows()).(quit := false), passes, |passes|)
    {
      hide IsRun, AfterPass, PassDoes;
      quit := false;
      Do(Begin);
      var k := 0;
      while !quit && k < |passes|
        invariant Valid() && Quiet() && old(run.acts) < run.acts && Now().pc == AtTest && !callingPendingFunctors
        invariant k <= |passes| && Now().polls == old(Now().polls) + k
        invariant Shows() == AfterPasses(old(Shows()).(quit := false), passes, k)
      {
        Pass(passes[k]);
        k := k + 1;
      }
      QuitStopsPasses(old(Shows()).(quit := false), passes, k);
      if quit {
        Do(Test);
      }
    }
  }

  /** Once quit_ is found set no further pass is made. */
  lemma {:induction false} QuitStopsPasses(v: View, passes: seq<Iteration>, k: nat)
    requires k <= |passes| && (AfterPasses(v, passes, k).quit || k == |passes|)
    ensures AfterPasses(v, passes, |passes|) == AfterPasses(v, passes, k)
    decreases |passes| - k
  {
    if k < |passes| {
      QuitStopsPasses(v, passes, k + 1);
    }
  }

  /** What one pass does: the handlers of all that is reported run, each once and in order; then exactly what
      was pending and what they queued begins, in that order; what that queues is pending afterwards. */
  predicate PassDoes(v: View, pass: Iteration, w: View) {
    var active := Polled(v, pass);
    var calls := CallsOf(active, pass.handlers, |active|);
    var functors := v.pending + Queued(calls);
    && w.executed == v.executed + functors && w.pending == QueuedBy(pass.functors, |functors|)
    && w.ran == v.ran + Inline(calls) + RanBy(functors, pass.functors, |functors|)
    && (w.quit <==> v.quit || Quits(calls) || SomeQuits(pass.functors, |functors|))
  }

  lemma PassBegins(v: View, pass: Iteration)
    ensures PassDoes(v, pass, AfterPass(v, pass))
  {
    var active := Polled(v, pass);
    HandlersDo(v, active, pass.handlers, |active|);
    var handled := AfterActive(v, active, pass.handlers, |active|);
    FunctorsDo(handled.(pending := []), handled.pending, pass.functors, |handled.pending|);
    assert handled.pending[..|handled.pending|] == handled.pending;
  }
}
