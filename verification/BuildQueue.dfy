/** The build queue (internal/gitdeploy/queue.go): a buffered channel, a two-slot semaphore, a wait
    group and a stop signal, driven by enqueuers, one processing loop, build goroutines and Stop.
    Every step below is one action that the Go runtime performs without interruption. */
module BuildQueue {

  const MAX_CONCURRENT_BUILDS := 2
  const QUEUE_BUFFER_SIZE := 100

  datatype Job = Job(buildId: int, repoUrl: string, commitSha: string, branch: string)

  /** Where the processing loop stands: waiting for a job, holding one without a slot, holding one
      with a slot but not yet dispatched, or gone. */
  datatype Loop = AtSelect | Holding(job: Job) | HasSlot(job: Job) | Exited

  datatype Stopping = NotStopped | Waiting | Returned

  /** accepted and started are the history of the run; started[i] is the i-th build. */
  datatype State = State(
    jobs: seq<Job>, loop: Loop, sem: nat, wg: nat, done: bool, stopping: Stopping,
    building: set<nat>, releasing: set<nat>, accepted: seq<Job>, started: seq<Job>, lost: seq<Job>)

  function Init(): State {
    State([], AtSelect, 0, 0, false, NotStopped, {}, {}, [], [], [])
  }

  datatype Step =
    | Enqueue(job: Job)
    | Receive
    | Acquire
    | Dispatch
    | ExitIdle
    | ExitHolding
    | ReleaseSlot(i: nat)
    | FinishBuild(i: nat)
    | CloseDone
    | ReturnFromStop

  predicate Enabled(s: State, a: Step) {
    match a
    case Enqueue(_) => true
    case Receive => s.loop.AtSelect? && s.jobs != []
    case Acquire => s.loop.Holding? && s.sem < MAX_CONCURRENT_BUILDS
    case Dispatch => s.loop.HasSlot?
    case ExitIdle => s.loop.AtSelect? && s.done
    case ExitHolding => s.loop.Holding? && s.done
    case ReleaseSlot(i) => i in s.building && s.sem > 0
    case FinishBuild(i) => i in s.releasing && s.wg > 0
    case CloseDone => s.stopping.NotStopped?
    case ReturnFromStop => s.stopping.Waiting? && s.wg == 0
  }

  function After(s: State, a: Step): State
    requires Enabled(s, a)
  {
    match a
    case Enqueue(job) =>
      if |s.jobs| < QUEUE_BUFFER_SIZE then s.(jobs := s.jobs + [job], accepted := s.accepted + [job]) else s
    case Receive => s.(jobs := s.jobs[1..], loop := Holding(s.jobs[0]))
    case Acquire => s.(sem := s.sem + 1, loop := HasSlot(s.loop.job))
    case Dispatch =>
      s.(wg := s.wg + 1, loop := AtSelect, building := s.building + {|s.started|},
         started := s.started + [s.loop.job])
    case ExitIdle => s.(loop := Exited)
    case ExitHolding => s.(loop := Exited, lost := s.lost + [s.loop.job])
    case ReleaseSlot(i) => s.(sem := s.sem - 1, building := s.building - {i}, releasing := s.releasing + {i})
    case FinishBuild(i) => s.(wg := s.wg - 1, releasing := s.releasing - {i})
    case CloseDone => s.(done := true, stopping := Waiting)
    case ReturnFromStop => s.(stopping := Returned)
  }

  /** The queue as an object; each method is one step of a goroutine that holds a reference to it. */
  class Queue {
    var jobs: seq<Job>
    var loop: Loop
    var sem: nat
    var wg: nat
    var done: bool
    var stopping: Stopping
    ghost var building: set<nat>
    ghost var releasing: set<nat>
    ghost var accepted: seq<Job>
    ghost var started: seq<Job>
    ghost var lost: seq<Job>

    ghost function Now(): State
      reads this
    {
      State(jobs, loop, sem, wg, done, stopping, building, releasing, accepted, started, lost)
    }

    constructor ()
      ensures Now() == Init()
    {
      jobs, loop, sem, wg, done, stopping := [], AtSelect, 0, 0, false, NotStopped;
      building, releasing, accepted, started, lost := {}, {}, [], [], [];
    }

    method Add(job: Job) returns (ok: bool)
      modifies this
      ensures Now() == After(old(Now()), Enqueue(job))
      ensures ok <==> accepted == old(accepted) + [job]
    {
      ok := |jobs| < QUEUE_BUFFER_SIZE;
      if ok {
        jobs := jobs + [job];
        accepted := accepted + [job];
      }
    }

    method TakeJob()
      requires Enabled(Now(), Receive)
      modifies this
      ensures Now() == After(old(Now()), Receive)
    {
      loop := Holding(jobs[0]);
      jobs := jobs[1..];
    }

    method TakeSlot()
      requires Enabled(Now(), Acquire)
      modifies this
      ensures Now() == After(old(Now()), Acquire)
    {
      sem := sem + 1;
      loop := HasSlot(loop.job);
    }

    method StartBuild()
      requires Enabled(Now(), Dispatch)
      modifies this
      ensures Now() == After(old(Now()), Dispatch)
    {
      wg := wg + 1;
      building, started := building + {|started|}, started + [loop.job];
      loop := AtSelect;
    }

    method LeaveLoop()
      requires done && (loop.AtSelect? || loop.Holding?)
      modifies this
      ensures Now() == After(old(Now()), if old(loop.AtSelect?) then ExitIdle else ExitHolding)
    {
      if loop.Holding? { lost := lost + [loop.job]; }
      loop := Exited;
    }

    method EndBuild(ghost i: nat)
      requires Enabled(Now(), ReleaseSlot(i))
      modifies this
      ensures Now() == After(old(Now()), ReleaseSlot(i))
    {
      sem := sem - 1;
      building, releasing := building - {i}, releasing + {i};
    }

    method ReportDone(ghost i: nat)
      requires Enabled(Now(), FinishBuild(i))
      modifies this
      ensures Now() == After(old(Now()), FinishBuild(i))
    {
      wg := wg - 1;
      releasing := releasing - {i};
    }

    method SignalStop()
      requires Enabled(Now(), CloseDone)
      modifies this
      ensures Now() == After(old(Now()), CloseDone)
    {
      done, stopping := true, Waiting;
    }

    method StopReturns()
      requires Enabled(Now(), ReturnFromStop)
      modifies this
      ensures Now() == After(old(Now()), ReturnFromStop)
    {
      stopping := Returned;
    }
  }

  // ---- Every reachable state ----

  /** The job the loop holds, if any. */
  function InHand(l: Loop): seq<Job> {
    match l case Holding(j) => [j] case HasSlot(j) => [j] case _ => []
  }

  /** The semaphore counts the running builds and a slot in hand. */
  ghost predicate SlotsCounted(s: State) {
    && s.sem == |s.building| + (if s.loop.HasSlot? then 1 else 0)
    && s.sem <= MAX_CONCURRENT_BUILDS
  }

  /** The wait group counts the builds that have not reported back. */
  ghost predicate BuildsCounted(s: State) {
    s.wg == |s.building| + |s.releasing|
  }

  /** A build runs or releases its slot, not both, and has been started. */
  ghost predicate BuildsApart(s: State) {
    && s.building !! s.releasing
    && (forall i :: i in s.building || i in s.releasing ==> i < |s.started|)
  }

  ghost predicate Counters(s: State) { SlotsCounted(s) && BuildsCounted(s) && BuildsApart(s) }

  /** First in, first out; a job is lost only by a loop that left because of Stop. */
  ghost predicate Order(s: State) {
    && s.accepted == s.started + InHand(s.loop) + s.lost + s.jobs
    && |InHand(s.loop)| + |s.lost| <= 1
    && |s.jobs| <= QUEUE_BUFFER_SIZE
    && (s.lost != [] ==> s.done && s.loop.Exited?)
    && (s.loop.Exited? ==> s.done)
    && (s.done <==> !s.stopping.NotStopped?)
  }

  ghost predicate Inv(s: State) { Counters(s) && Order(s) }

  lemma CardinalityAdd<T>(a: set<T>, x: T)
    ensures |a + {x}| == if x in a then |a| else |a| + 1
  {
    if x in a { assert a + {x} == a; }
  }

  lemma CardinalityRemove<T>(a: set<T>, x: T)
    requires x in a
    ensures |a - {x}| == |a| - 1
  {
  }

  lemma StepKeepsSlots(s: State, a: Step)
    requires SlotsCounted(s) && BuildsApart(s) && Enabled(s, a)
    ensures SlotsCounted(After(s, a))
  {
    match a {
      case Dispatch => CardinalityAdd(s.building, |s.started|);
      case ReleaseSlot(i) => CardinalityRemove(s.building, i);
      case _ =>
    }
  }

  lemma StepKeepsBuilds(s: State, a: Step)
    requires BuildsCounted(s) && BuildsApart(s) && Enabled(s, a)
    ensures BuildsCounted(After(s, a))
  {
    match a {
      case Dispatch => CardinalityAdd(s.building, |s.started|);
      case ReleaseSlot(i) => CardinalityRemove(s.building, i); CardinalityAdd(s.releasing, i);
      case FinishBuild(i) => CardinalityRemove(s.releasing, i);
      case _ =>
    }
  }

  lemma StepKeepsApart(s: State, a: Step)
    requires BuildsApart(s) && Enabled(s, a)
    ensures BuildsApart(After(s, a))
  {
  }

  lemma StepKeepsCounters(s: State, a: Step)
    requires Counters(s) && Enabled(s, a)
    ensures Counters(After(s, a))
  {
    hide Enabled, After, SlotsCounted, BuildsCounted, BuildsApart;
    StepKeepsSlots(s, a);
    StepKeepsBuilds(s, a);
    StepKeepsApart(s, a);
  }

  lemma StepKeepsOrder(s: State, a: Step)
    requires Order(s) && Enabled(s, a)
    ensures Order(After(s, a))
    ensures s.started <= After(s, a).started && s.accepted <= After(s, a).accepted
  {
  }

  lemma StepKeepsInv(s: State, a: Step)
    requires Inv(s) && Enabled(s, a)
    ensures Inv(After(s, a))
    ensures s.started <= After(s, a).started && s.accepted <= After(s, a).accepted
  {
    hide Enabled, After, Counters, Order;
    StepKeepsCounters(s, a);
    StepKeepsOrder(s, a);
  }

  /** The states that a schedule of steps leads through, as far as it is enabled. */
  ghost predicate RunsTo(s: State, steps: seq<Step>, t: State)
    decreases |steps|
  {
    if steps == [] then s == t
    else Enabled(s, steps[0]) && RunsTo(After(s, steps[0]), steps[1..], t)
  }

  ghost predicate Reachable(s: State) {
    exists steps :: RunsTo(Init(), steps, s)
  }

  lemma {:induction false} RunKeepsInv(s: State, steps: seq<Step>, t: State)
    requires Inv(s) && RunsTo(s, steps, t)
    ensures Inv(t) && s.started <= t.started && s.accepted <= t.accepted
    decreases |steps|
  {
    hide Enabled, After, Inv;
    if steps != [] {
      StepKeepsInv(s, steps[0]);
      RunKeepsInv(After(s, steps[0]), steps[1..], t);
    }
  }

  /** At most two builds run and at most a hundred jobs wait, and the accepted jobs are those started, at most
      one in hand or lost, and those waiting, in the order in which they were accepted. */
  lemma QueueSafe(s: State)
    requires Reachable(s)
    ensures |s.building| <= 2 && |s.jobs| <= 100
    ensures s.accepted == s.started + (InHand(s.loop) + s.lost) + s.jobs
    ensures |InHand(s.loop) + s.lost| <= 1
    ensures !s.done ==> s.lost == []
  {
    var steps :| RunsTo(Init(), steps, s);
    RunKeepsInv(Init(), steps, s);
  }

  /** Which build a step starts, as a position among the accepted jobs. */
  ghost function Starts(s: State, a: Step): set<nat>
    requires Enabled(s, a)
  {
    After(s, a).building - s.building
  }

  /** A build is started for the next accepted job that has had none, so no job is built twice:
      a build that a later step starts has a later position. */
  lemma BuiltOnce(s: State, a: Step, steps: seq<Step>, t: State, b: Step)
    requires Inv(s) && Enabled(s, a) && RunsTo(After(s, a), steps, t) && Enabled(t, b)
    ensures forall i, j :: i in Starts(s, a) && j in Starts(t, b) ==> i < j
    ensures forall i :: i in Starts(s, a) ==>
              i == |s.started| < |s.accepted| && After(s, a).started[i] == s.accepted[i]
  {
    StepKeepsInv(s, a);
    RunKeepsInv(After(s, a), steps, t);
  }

  // ---- What Stop does not promise ----

  ghost predicate QuietForever(s: State) {
    forall steps, t :: RunsTo(s, steps, t) ==> t.building == {}
  }

  lemma {:induction false} ExitedStaysQuiet(s: State, steps: seq<Step>, t: State)
    requires s.loop.Exited? && s.building == {} && RunsTo(s, steps, t)
    ensures t.building == {}
    decreases |steps|
  {
    if steps != [] {
      ExitedStaysQuiet(After(s, steps[0]), steps[1..], t);
    }
  }

  /** A loop that has not exited can still start a build. */
  lemma LoopCanBuild(s: State) returns (steps: seq<Step>, t: State)
    requires Inv(s) && !s.loop.Exited? && s.building == {}
    ensures RunsTo(s, steps, t) && t.building != {}
    decreases match s.loop case AtSelect => if s.jobs == [] then 3 else 2 case Holding(_) => 1 case _ => 0
  {
    var a := match s.loop
      case AtSelect => if s.jobs == [] then Enqueue(Job(0, "", "", "")) else Receive
      case Holding(_) => Acquire
      case _ => Dispatch;
    var s' := After(s, a);
    StepKeepsInv(s, a);
    assert RunsTo(s', [], s');
    if a.Dispatch? {
      assert |s.started| in s'.building;
      steps, t := [a], s';
      assert steps[1..] == [];
    } else {
      var rest;
      rest, t := LoopCanBuild(s');
      steps := [a] + rest;
      assert steps[1..] == rest;
    }
  }

  /** Builds are over for good exactly when none runs and the loop is gone. That Stop has returned
      is neither needed for it nor enough. */
  lemma QuietExactlyWhenExited(s: State)
    requires Inv(s)
    ensures QuietForever(s) <==> s.building == {} && s.loop.Exited?
  {
    assert RunsTo(s, [], s);
    if s.building == {} && s.loop.Exited? {
      forall steps, t | RunsTo(s, steps, t) ensures t.building == {} {
        ExitedStaysQuiet(s, steps, t);
      }
    } else if s.building == {} {
      var steps, t := LoopCanBuild(s);
    }
  }

  /** A run in which Stop has returned and a build is running: the loop's select took the free slot
      although the stop signal was already there. */
  lemma BuildAfterStopReturned(j: Job)
    ensures exists s :: Reachable(s) && s.stopping.Returned? && s.building != {}
  {
    var s0 := Init();
    var s1 := After(s0, Enqueue(j));
    var s2 := After(s1, Receive);
    var s3 := After(s2, CloseDone);
    var s4 := After(s3, ReturnFromStop);
    var s5 := After(s4, Acquire);
    var s6 := After(s5, Dispatch);
    assert 0 in s6.building;
    assert RunsTo(s6, [], s6);
    assert RunsTo(s5, [Dispatch], s6);
    assert RunsTo(s4, [Acquire, Dispatch], s6) by { assert [Acquire, Dispatch][1..] == [Dispatch]; }
    var rest := [ReturnFromStop, Acquire, Dispatch];
    assert RunsTo(s3, rest, s6) by { assert rest[1..] == [Acquire, Dispatch]; }
    assert RunsTo(s2, [CloseDone] + rest, s6) by { assert ([CloseDone] + rest)[1..] == rest; }
    var rest2 := [CloseDone] + rest;
    assert RunsTo(s1, [Receive] + rest2, s6) by { assert ([Receive] + rest2)[1..] == rest2; }
    var rest3 := [Receive] + rest2;
    assert RunsTo(s0, [Enqueue(j)] + rest3, s6) by { assert ([Enqueue(j)] + rest3)[1..] == rest3; }
  }
}
