/** The libuv scheduler as interleaved steps of its threads. */
module Scheduler {
  import opened InvocationQueue

  // Producer threads, the event loop and the destructor. Assumed of libuv: sends coalesce, the loop
  // clears the pending send before it calls back, no callback starts on a closing handle, and the close
  // callback runs once. Assumed of the callers: nobody is inside `invoke` when the destructor runs, and it
  // runs on the loop thread.

  type Thread = nat

  const LOOP: Thread := 0

  datatype Pc = Idle | Entered | Checked | Batch(busy: bool)

  datatype Handle = Open | Closing | Freed

  datatype State = State(
    queue: seq<Fn>,
    midway: set<Thread>,      // threads between push and send
    pending: bool,            // a send not yet delivered
    pc: Pc,                   // the loop thread inside the async callback
    rest: seq<Fn>,            // of the batch swapped out, what is still to run
    destroyed: bool,          // `close_requested`
    handle: Handle,
    batches: nat,             // batches started
    pushed: seq<(Fn, nat)>,   // every push in lock order, with the batches started before it
    executed: seq<(Fn, nat)>, // every function run, with the number of its batch
    closes: nat,              // calls of uv_close
    frees: nat,               // times data and handle were freed
    fault: bool               // data or handle was touched after it was freed
  )

  const INIT := State([], {}, false, Idle, [], false, Open, 0, [], [], 0, 0, false)

  datatype Event =
    | Push(t: Thread, fn: Fn)
    | Send(t: Thread)
    | Wake
    | Check
    | Swap
    | Start
    | Finish
    | Done
    | Destroy
    | CloseCallback

  predicate Enabled(s: State, e: Event) {
    match e
    case Push(t, _) => !s.destroyed && t !in s.midway && (t == LOOP ==> s.pc == Idle || s.pc == Batch(true))
    case Send(t) => t in s.midway
    case Wake => s.pc == Idle && s.pending && s.handle == Open && LOOP !in s.midway
    case Check => s.pc == Entered
    case Swap => s.pc == Checked
    case Start => s.pc == Batch(false) && s.rest != []
    case Finish => s.pc == Batch(true) && LOOP !in s.midway
    case Done => s.pc == Batch(false) && s.rest == []
    case Destroy => !s.destroyed && s.midway == {} && (s.pc == Idle || s.pc == Batch(true))
    case CloseCallback => s.handle == Closing && s.pc == Idle
  }

  /** A step that uses `data` or the handle. */
  function Touch(s: State): State {
    if s.handle == Freed then s.(fault := true) else s
  }

  function Next(s: State, e: Event): State
    requires Enabled(s, e)
  {
    match e
    case Push(t, fn) =>
      Touch(s).(queue := s.queue + [fn], midway := s.midway + {t}, pushed := s.pushed + [(fn, s.batches)])
    case Send(t) => Touch(s).(midway := s.midway - {t}, pending := true)
    case Wake => Touch(s).(pending := false, pc := Entered)
    case Check =>
      if s.destroyed then Touch(s).(pc := Idle, handle := Closing, closes := s.closes + 1)
      else Touch(s).(pc := Checked)
    case Swap => Touch(s).(rest := s.queue, queue := [], batches := s.batches + 1, pc := Batch(false))
    case Start => s.(executed := s.executed + [(s.rest[0], s.batches)], rest := s.rest[1..], pc := Batch(true))
    case Finish => s.(pc := Batch(false))
    case Done => s.(pc := Idle)
    case Destroy => Touch(s).(destroyed := true, pending := true)
    case CloseCallback => Touch(s).(handle := Freed, frees := s.frees + 1)
  }

  /** `s'` is reached from `s` by the given steps. */
  predicate Run(s: State, events: seq<Event>, s': State)
    decreases |events|
  {
    if events == [] then s' == s
    else Enabled(s, events[0]) && Run(Next(s, events[0]), events[1..], s')
  }

  // ----- what holds in every reachable state

  function Fns(log: seq<(Fn, nat)>): (fns: seq<Fn>)
    ensures |fns| == |log|
    ensures forall i :: 0 <= i < |log| ==> fns[i] == log[i].0
  {
    seq(|log|, i requires 0 <= i < |log| => log[i].0)
  }

  /** Each function runs at most once, in the order of the pushes, and nothing is lost. */
  predicate Fifo(s: State) {
    Fns(s.pushed) == Fns(s.executed) + s.rest + s.queue
  }

  /** A function runs in a batch that started after its push; what is still queued was pushed in the
      current batch or before. */
  predicate LaterBatch(s: State) {
    && |s.executed| <= |s.pushed|
    && (forall i :: 0 <= i < |s.executed| ==> s.pushed[i].1 < s.executed[i].1 <= s.batches)
    && (forall i :: |s.executed| <= i < |s.pushed| ==>
          if i < |s.executed| + |s.rest| then s.pushed[i].1 < s.batches else s.pushed[i].1 <= s.batches)
    && (s.rest != [] ==> s.pc.Batch?)
  }

  /** Until the scheduler is closed, somebody is about to empty a non-empty queue. */
  predicate NoLostWakeup(s: State) {
    s.queue != [] && !s.destroyed ==> s.pending || s.midway != {} || s.pc == Entered || s.pc == Checked
  }

  /** Closing: the destructor's own send leads to the one close, and no batch starts after a callback
      could see the request. */
  predicate CloseProtocol(s: State) {
    && (s.destroyed ==> s.midway == {} && s.pc != Checked)
    && (s.destroyed && s.handle == Open ==> s.pending || s.pc == Entered)
    && (s.handle != Open ==> s.destroyed && s.pc == Idle)
    && s.closes == (if s.handle == Open then 0 else 1)
    && s.frees == (if s.handle == Freed then 1 else 0)
    && !s.fault
  }

  predicate Inv(s: State) {
    Fifo(s) && LaterBatch(s) && NoLostWakeup(s) && CloseProtocol(s)
  }

  lemma StepKeepsFifo(s: State, e: Event)
    requires Inv(s) && Enabled(s, e)
    ensures Fifo(Next(s, e)) && LaterBatch(Next(s, e))
  {
    var s' := Next(s, e);
    assert |Fns(s.pushed)| == |s.executed| + |s.rest| + |s.queue|;
    match e
    case Push(t, fn) => assert Fns(s'.pushed) == Fns(s.pushed) + [fn];
    case Start =>
      assert Fns(s'.executed) == Fns(s.executed) + [s.rest[0]];
      assert s.rest == [s.rest[0]] + s.rest[1..];
    case Swap => assert s.rest == [];
    case _ =>
  }

  lemma StepKeepsInv(s: State, e: Event)
    requires Inv(s) && Enabled(s, e)
    ensures Inv(Next(s, e))
  {
    StepKeepsFifo(s, e);
  }

  /** In every interleaving: FIFO without loss, later batches for what running functions post, no
      lost wake-up, and the close protocol. */
  lemma {:induction false} RunKeepsInv(s: State, events: seq<Event>, s': State)
    requires Inv(s) && Run(s, events, s')
    ensures Inv(s')
    decreases |events|
  {
    if events != [] {
      StepKeepsInv(s, events[0]);
      RunKeepsInv(Next(s, events[0]), events[1..], s');
    }
  }

  lemma Reachable(events: seq<Event>, s: State)
    requires Run(INIT, events, s)
    ensures Inv(s)
    ensures Fns(s.executed) <= Fns(s.pushed)
  {
    RunKeepsInv(INIT, events, s);
  }

  /** Once a callback has seen the close request, no function starts any more. */
  lemma {:induction false} NothingStartsAfterClose(s: State, events: seq<Event>, s': State)
    requires Inv(s) && s.handle != Open && Run(s, events, s')
    ensures s'.executed == s.executed && s'.batches == s.batches && s'.closes == 1 && s'.frees <= 1 && !s'.fault
    decreases |events|
  {
    if events != [] {
      StepKeepsInv(s, events[0]);
      assert s.rest == [];
      NothingStartsAfterClose(Next(s, events[0]), events[1..], s');
    }
  }

  /** The steps that use the scheduler's data or the handle. */
  predicate Uses(e: Event) {
    !e.Start? && !e.Finish? && !e.Done?
  }

  /** Once data and handle are freed no such step can happen any more. */
  lemma FreedIsUntouched(s: State, e: Event)
    requires Inv(s) && s.handle == Freed && Uses(e)
    ensures !Enabled(s, e)
  {
  }

  /** A call to `invoke` never waits: another thread pushes and sends whatever the loop is doing, the loop
      thread whenever its own code runs; the destructor runs between calls. */
  lemma InvokeNeverWaits(s: State, t: Thread, fn: Fn)
    requires !s.destroyed && t !in s.midway && (t == LOOP ==> s.pc in {Idle, Batch(true)})
    ensures Enabled(s, Push(t, fn)) && Enabled(Next(s, Push(t, fn)), Send(t))
    ensures s.midway == {} && s.pc in {Idle, Batch(true)} ==> Enabled(s, Destroy)
  {
  }

  /** The loop thread does one thing at a time: while the callback works on the queue, none of its own code runs. */
  lemma LoopIsOneThread(s: State, fn: Fn)
    requires s.pc !in {Idle, Batch(true)} || LOOP in s.midway
    ensures !Enabled(s, Push(LOOP, fn)) && !Enabled(s, Wake) && !Enabled(s, Finish)
    ensures s.pc !in {Idle, Batch(true)} ==> !Enabled(s, Destroy)
  {
  }

  // ----- any fair run drains

  /** The steps the threads owe: everything but new calls from outside. */
  predicate Owed(e: Event) {
    !e.Push? && !e.Destroy?
  }

  /** Bounds the number of owed steps. */
  function Work(s: State): nat {
    6 * |s.midway| + (if s.pending then 5 else 0) + 2 * (|s.queue| + |s.rest|)
    + (match s.pc case Idle => 0 case Entered => 4 case Checked => 3 case Batch(busy) => if busy then 3 else 2)
    + (match s.handle case Open => 2 case Closing => 1 case Freed => 0)
  }

  lemma OwedStepsEnd(s: State, e: Event)
    requires Inv(s) && Enabled(s, e) && Owed(e)
    ensures Work(Next(s, e)) < Work(s)
  {
    if e.Send? {
      assert |s.midway - {e.t}| == |s.midway| - 1;
    }
  }

  /** Without new calls, no run is longer than its work, and a run that cannot be continued has run
      every function or, after the destructor, freed everything. */
  lemma {:induction false} Drains(s: State, events: seq<Event>, s': State)
    requires Inv(s) && Run(s, events, s') && (forall e :: e in events ==> Owed(e))
    ensures |events| + Work(s') <= Work(s)
    ensures (forall e :: Owed(e) ==> !Enabled(s', e)) ==>
              if s.destroyed then s'.handle == Freed && s'.frees == 1 && s'.closes == 1
              else s'.queue == [] && s'.rest == [] && Fns(s'.executed) == Fns(s'.pushed)
    decreases |events|
  {
    if events == [] {
      if forall e :: Owed(e) ==> !Enabled(s', e) {
        Stuck(s');
      }
    } else {
      StepKeepsInv(s, events[0]);
      OwedStepsEnd(s, events[0]);
      Drains(Next(s, events[0]), events[1..], s');
    }
  }

  lemma Stuck(s: State)
    requires Inv(s) && forall e :: Owed(e) ==> !Enabled(s, e)
    ensures if s.destroyed then s.handle == Freed else s.queue == [] && s.rest == [] && Fns(s.executed) == Fns(s.pushed)
  {
    if s.midway != {} {
      var t :| t in s.midway;
      assert Owed(Send(t)) && Enabled(s, Send(t));
    }
    assert !Enabled(s, Wake) && !Enabled(s, Check) && !Enabled(s, Swap) && !Enabled(s, Start) && !Enabled(s, Finish)
        && !Enabled(s, Done) && !Enabled(s, CloseCallback);
  }

  // ----- whatever is pushed behind it, a queued function runs

  /** The steps of the loop thread inside and around the callback. */
  predicate LoopStep(e: Event) {
    e.Wake? || e.Check? || e.Swap? || e.Start? || e.Finish? || e.Done?
  }

  function LoopSteps(events: seq<Event>): nat {
    if events == [] then 0 else (if LoopStep(events[0]) then 1 else 0) + LoopSteps(events[1..])
  }

  /** At most this many loop steps lie before the end of the step that starts the `p`-th push. */
  function Due(s: State, p: nat): nat
    requires |s.executed| <= p
  {
    var ahead := p - |s.executed|;
    if ahead < |s.rest| then 2 * ahead + 1 + (if s.pc == Batch(true) then 1 else 0)
    else 2 * ahead + 1 +
         (match s.pc
          case Checked => 1
          case Entered => 2
          case Idle => 3
          case Batch(busy) => if busy then 5 else 4)
  }

  lemma DueDrops(s: State, e: Event, p: nat)
    requires Inv(s) && Enabled(s, e) && !s.destroyed && !e.Destroy? && |s.executed| <= p < |s.pushed|
    ensures var s' := Next(s, e);
            |s'.executed| <= p ==> if LoopStep(e) then Due(s', p) < Due(s, p) else Due(s', p) == Due(s, p)
  {
    assert |Fns(s.pushed)| == |s.executed| + |s.rest| + |s.queue|;
  }

  /** Until the scheduler is destroyed, and whatever is pushed meanwhile, even by running functions, a
      pushed function has run after that many loop steps. */
  lemma {:induction false} RunsInTime(s: State, events: seq<Event>, s': State, p: nat)
    requires Inv(s) && Run(s, events, s') && !s.destroyed && (forall e :: e in events ==> !e.Destroy?)
    requires |s.executed| <= p < |s.pushed|
    ensures |s'.executed| <= p ==> LoopSteps(events) + Due(s', p) <= Due(s, p)
    decreases |events|
  {
    if events != [] {
      var e, s1 := events[0], Next(s, events[0]);
      StepKeepsInv(s, e);
      DueDrops(s, e, p);
      if |s1.executed| <= p {
        RunsInTime(s1, events[1..], s', p);
      } else {
        ExecutedGrows(s1, events[1..], s');
      }
    }
  }

  lemma {:induction false} ExecutedGrows(s: State, events: seq<Event>, s': State)
    requires Run(s, events, s')
    ensures |s.executed| <= |s'.executed|
    decreases |events|
  {
    if events != [] { ExecutedGrows(Next(s, events[0]), events[1..], s'); }
  }

  /** And while it has not run, the loop thread can go on, or a send already begun lets it. */
  lemma NeverStuck(s: State, p: nat)
    requires Inv(s) && !s.destroyed && |s.executed| <= p < |s.pushed|
    ensures (exists e :: LoopStep(e) && Enabled(s, e)) || exists t :: t in s.midway && Enabled(s, Send(t))
  {
    assert |Fns(s.pushed)| == |s.executed| + |s.rest| + |s.queue|;
    if s.midway != {} {
      var t :| t in s.midway;
      assert Enabled(s, Send(t));
    } else {
      assert LoopStep(Wake) && LoopStep(Check) && LoopStep(Swap) && LoopStep(Start) && LoopStep(Finish) && LoopStep(Done);
      assert Enabled(s, Wake) || Enabled(s, Check) || Enabled(s, Swap) || Enabled(s, Start) || Enabled(s, Finish) || Enabled(s, Done);
    }
  }

  // ----- a batch is one call of `Queue.InvokeAll`

  /** A running function's own calls. */
  function PostEvents(fns: seq<Fn>): seq<Event> {
    if fns == [] then [] else [Push(LOOP, fns[0]), Send(LOOP)] + PostEvents(fns[1..])
  }

  function BatchEvents(posts: Fn -> seq<Fn>, fns: seq<Fn>): seq<Event> {
    if fns == [] then [Done] else [Start] + PostEvents(posts(fns[0])) + [Finish] + BatchEvents(posts, fns[1..])
  }

  lemma {:induction false} RunJoined(s: State, a: seq<Event>, s1: State, b: seq<Event>, s2: State)
    requires Run(s, a, s1) && Run(s1, b, s2)
    ensures Run(s, a + b, s2)
    decreases |a|
  {
    if a == [] {
      assert a + b == b;
    } else {
      assert (a + b)[0] == a[0] && (a + b)[1..] == a[1..] + b;
      RunJoined(Next(s, a[0]), a[1..], s1, b, s2);
    }
  }

  /** From `s` to `s'` the running function has only pushed `fns`. */
  predicate HasPosted(s: State, s': State, fns: seq<Fn>) {
    && s'.queue == s.queue + fns && s'.pc == s.pc && s'.destroyed == s.destroyed && s'.midway == s.midway
    && s'.rest == s.rest && s'.executed == s.executed
  }

  lemma {:induction false} PostsRun(s: State, fns: seq<Fn>) returns (s': State)
    requires s.pc == Batch(true) && !s.destroyed && LOOP !in s.midway
    ensures Run(s, PostEvents(fns), s') && HasPosted(s, s', fns)
    decreases |fns|
  {
    if fns == [] {
      s' := s;
    } else {
      var s1 := PostRuns(s, fns[0]);
      s' := PostsRun(s1, fns[1..]);
      PostThenPosts(s, s1, s', fns);
    }
  }

  lemma PostThenPosts(s: State, s1: State, s': State, fns: seq<Fn>)
    requires fns != [] && Run(s, [Push(LOOP, fns[0]), Send(LOOP)], s1) && Run(s1, PostEvents(fns[1..]), s')
    requires HasPosted(s, s1, [fns[0]]) && HasPosted(s1, s', fns[1..])
    ensures Run(s, PostEvents(fns), s') && HasPosted(s, s', fns)
  {
    RunJoined(s, [Push(LOOP, fns[0]), Send(LOOP)], s1, PostEvents(fns[1..]), s');
    assert fns == [fns[0]] + fns[1..];
  }

  lemma PostRuns(s: State, fn: Fn) returns (s': State)
    requires s.pc == Batch(true) && !s.destroyed && LOOP !in s.midway
    ensures Run(s, [Push(LOOP, fn), Send(LOOP)], s') && HasPosted(s, s', [fn])
  {
    var two := [Push(LOOP, fn), Send(LOOP)];
    s' := Next(Next(s, two[0]), two[1]);
    assert two[1..] == [Send(LOOP)] && two[1..][1..] == [];
  }

  /** From `s` to `s'` the loop has run `fns` of its batch. */
  predicate HasRun(s: State, s': State, posts: Fn -> seq<Fn>, fns: seq<Fn>) {
    && !s'.destroyed && LOOP !in s'.midway
    && s'.queue == s.queue + Posted(posts, fns) && Fns(s'.executed) == Fns(s.executed) + fns
  }

  /** One function of the batch, with its own calls. */
  lemma OneRuns(s: State, posts: Fn -> seq<Fn>) returns (s': State)
    requires s.pc == Batch(false) && !s.destroyed && LOOP !in s.midway && s.rest != []
    ensures Run(s, [Start] + PostEvents(posts(s.rest[0])) + [Finish], s')
    ensures s'.pc == Batch(false) && s'.rest == s.rest[1..] && HasRun(s, s', posts, [s.rest[0]])
  {
    var fn, s1 := s.rest[0], Next(s, Start);
    var s2 := PostsRun(s1, posts(fn));
    s' := Next(s2, Finish);
    assert [Start][1..] == [] && [Finish][1..] == [];
    assert Run(s, [Start], s1) && Run(s2, [Finish], s');
    RunJoined(s, [Start], s1, PostEvents(posts(fn)), s2);
    RunJoined(s, [Start] + PostEvents(posts(fn)), s2, [Finish], s');
    assert Fns(s1.executed) == Fns(s.executed) + [fn];
    PostedOne(posts, fn);
  }

  lemma {:induction false} BatchRuns(s: State, posts: Fn -> seq<Fn>) returns (s': State)
    requires s.pc == Batch(false) && !s.destroyed && LOOP !in s.midway
    ensures Run(s, BatchEvents(posts, s.rest), s') && s'.pc == Idle && HasRun(s, s', posts, s.rest)
    decreases |s.rest|
  {
    if s.rest == [] {
      s' := Next(s, Done);
      assert [Done][1..] == [];
    } else {
      var s1 := OneRuns(s, posts);
      s' := BatchRuns(s1, posts);
      OneThenBatch(s, posts, s.rest, s1, s');
    }
  }

  lemma OneThenBatch(s: State, posts: Fn -> seq<Fn>, fns: seq<Fn>, s1: State, s': State)
    requires fns != [] && Run(s, [Start] + PostEvents(posts(fns[0])) + [Finish], s1) && Run(s1, BatchEvents(posts, fns[1..]), s')
    requires HasRun(s, s1, posts, [fns[0]]) && HasRun(s1, s', posts, fns[1..])
    ensures Run(s, BatchEvents(posts, fns), s') && HasRun(s, s', posts, fns)
  {
    RunJoined(s, [Start] + PostEvents(posts(fns[0])) + [Finish], s1, BatchEvents(posts, fns[1..]), s');
    HasRunJoined(s, s1, s', posts, fns[0], fns[1..]);
    assert fns == [fns[0]] + fns[1..];
  }

  lemma HasRunJoined(s: State, s1: State, s': State, posts: Fn -> seq<Fn>, fn: Fn, fns: seq<Fn>)
    requires HasRun(s, s1, posts, [fn]) && HasRun(s1, s', posts, fns)
    ensures HasRun(s, s', posts, [fn] + fns)
  {
    PostedJoined(posts, [fn], fns);
  }

  /** On an otherwise quiet scheduler, the loop's callback does with the queue what `Queue.InvokeAll`
      does. */
  lemma CallbackInvokesAll(s: State, posts: Fn -> seq<Fn>) returns (s': State)
    requires Inv(s) && s.pc == Checked && LOOP !in s.midway
    ensures Run(s, [Swap] + BatchEvents(posts, s.queue), s') && s'.pc == Idle
    ensures s'.queue == Posted(posts, s.queue) && Fns(s'.executed) == Fns(s.executed) + s.queue
  {
    var s1 := Next(s, Swap);
    s' := BatchRuns(s1, posts);
    assert [Swap][1..] == [];
    RunJoined(s, [Swap], s1, BatchEvents(posts, s.queue), s');
  }
}
