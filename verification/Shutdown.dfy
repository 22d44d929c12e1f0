/**
  * Closing a demo runtime: one shared task closes the owned resources, any number of callers wait for it,
  * and cancellations may arrive at every point where a caller is suspended.
  */
module Shutdown {

  type CallerId = nat

  datatype Result = Closed | Failed | Killed

  /** Closing(k, failed): the task is closing the resource at position k - 1, and k - 1 more remain. */
  datatype Task = Absent | Created | Closing(left: nat, failed: bool) | Done(result: Result)

  datatype Outcome = Returned | ShutdownError | CancelledError | CrossedBaseline

  datatype Phase = Waiting | Left(outcome: Outcome)

  /**
    * One call of aclose. asked and taken are history: whether anybody cancelled the caller while it waited, and
    * how often somebody else withdrew a cancellation meanwhile.
    */
  datatype Caller = Caller(
    phase: Phase, baseline: nat, cancelling: nat, requested: bool, poked: bool, asked: bool, taken: nat)

  datatype State = State(
    resources: nat, task: Task, attempted: seq<nat>, settled: seq<bool>, callers: map<CallerId, Caller>)

  /** Everything that may happen between two suspensions. */
  datatype Event =
    | Arrive(c: CallerId, cancelling: nat)
    | Cancel(c: CallerId)
    | Uncancel(c: CallerId)
    | Begin
    | Kill
    | Settle(ok: bool)
    | Wake(c: CallerId, cancelled: bool)

  function Initial(resources: nat): State { State(resources, Absent, [], [], map[]) }

  // ---- the close task ----

  /** From here the task closes the resource at position left - 1, or ends. */
  function Next(s: State, left: nat, failed: bool): State {
    if left == 0 then s.(task := Done(if failed then Failed else Closed))
    else s.(task := Closing(left, failed), attempted := s.attempted + [left - 1])
  }

  // ---- the callers ----

  /** task.result(), then the deferred cancellation. */
  function Conclude(result: Result, requested: bool): Outcome {
    match result
    case Failed => ShutdownError
    case Killed => CancelledError
    case Closed => if requested then CancelledError else Returned
  }

  /** A caller resumes: the cancellation is noted, the counter balanced, and the loop condition read again. */
  function Resume(w: Caller, task: Task, cancelled: bool): Caller {
    if w.cancelling < w.baseline then w.(phase := Left(CrossedBaseline), requested := w.requested || cancelled)
    else
      var requested := w.requested || cancelled || w.cancelling > w.baseline;
      w.(
        cancelling := w.baseline,
        requested := requested,
        poked := false,
        phase := if task.Done? then Left(Conclude(task.result, requested)) else Waiting)
  }

  function Enter(cancelling: nat, task: Task): Caller {
    var phase := if task.Done? then Left(Conclude(task.result, cancelling > 0)) else Waiting;
    Caller(phase, cancelling, cancelling, cancelling > 0, false, false, 0)
  }

  predicate IsWaiting(s: State, c: CallerId) { c in s.callers && s.callers[c].phase.Waiting? }

  predicate Enabled(s: State, e: Event) {
    match e
    case Arrive(c, _) => c !in s.callers
    case Cancel(c) => IsWaiting(s, c)
    case Uncancel(c) => IsWaiting(s, c) && s.callers[c].cancelling > 0
    case Begin => s.task.Created?
    case Kill => s.task.Created?
    case Settle(_) => s.task.Closing? && s.task.left > 0
    case Wake(c, cancelled) =>
      IsWaiting(s, c) &&
      if cancelled then s.callers[c].poked || s.task == Done(Killed)
      else s.task.Done? && s.task != Done(Killed)
  }

  function Step(s: State, e: Event): State
    requires Enabled(s, e)
  {
    match e
    case Arrive(c, cancelling) =>
      var task := if s.task.Absent? then Created else s.task;
      s.(task := task, callers := s.callers[c := Enter(cancelling, task)])
    case Cancel(c) =>
      var w := s.callers[c];
      s.(callers := s.callers[c := w.(cancelling := w.cancelling + 1, poked := true, asked := true)])
    case Uncancel(c) =>
      var w := s.callers[c];
      s.(callers := s.callers[c := w.(cancelling := w.cancelling - 1, taken := w.taken + 1)])
    case Begin => Next(s, s.resources, false)
    case Kill => s.(task := Done(Killed))
    case Settle(ok) => Next(s.(settled := s.settled + [ok]), s.task.left - 1, s.task.failed || !ok)
    case Wake(c, cancelled) => s.(callers := s.callers[c := Resume(s.callers[c], s.task, cancelled)])
  }

  /** A schedule; events that cannot happen in a state are passed over. */
  function Run(s: State, events: seq<Event>): State
    decreases |events|
  {
    if events == [] then s else Run(Advance(s, events[0]), events[1..])
  }

  function Advance(s: State, e: Event): State { if Enabled(s, e) then Step(s, e) else s }

  // ---- what every schedule keeps ----

  /** The positions closed when left resources have not been attempted, last first. */
  function Backwards(resources: nat, left: nat): (r: seq<nat>)
    requires left <= resources
    ensures |r| == resources - left
  {
    seq(resources - left, i requires 0 <= i < resources - left => resources - 1 - i)
  }

  predicate TaskSound(s: State) {
    match s.task
    case Absent => s.attempted == [] && s.settled == [] && s.callers == map[]
    case Created => s.attempted == [] && s.settled == []
    case Closing(left, failed) =>
      && 1 <= left <= s.resources
      && s.attempted == Backwards(s.resources, left - 1)
      && |s.settled| == s.resources - left
      && failed == (false in s.settled)
    case Done(Killed) => s.attempted == [] && s.settled == []
    case Done(result) =>
      && s.attempted == Backwards(s.resources, 0)
      && |s.settled| == s.resources
      && (result.Failed? <==> false in s.settled)
  }

  predicate WaiterSound(w: Caller) {
    && (w.requested ==> w.baseline > 0 || w.asked)
    && (w.poked || w.cancelling > w.baseline ==> w.asked)
    && (w.baseline > 0 ==> w.requested)
    && (w.taken == 0 ==> w.baseline <= w.cancelling)
    && (w.taken == 0 && w.asked ==> w.requested || w.cancelling > w.baseline)
    && w.baseline <= w.cancelling + w.taken
  }

  predicate LeaverSound(w: Caller, task: Task)
    requires w.phase.Left?
  {
    && (w.phase.outcome == CrossedBaseline ==> w.cancelling < w.baseline && w.taken > 0)
    && (w.phase.outcome != CrossedBaseline ==>
          && w.cancelling == w.baseline
          && task.Done?
          && w.phase.outcome == Conclude(task.result, w.requested))
    && (w.requested && task != Done(Killed) ==> w.baseline > 0 || w.asked)
    && (w.phase.outcome != CrossedBaseline && w.baseline > 0 ==> w.requested)
    && (w.phase.outcome != CrossedBaseline && w.taken == 0 && w.asked ==> w.requested)
  }

  predicate CallerSound(w: Caller, task: Task) {
    if w.phase.Waiting? then WaiterSound(w) && !task.Absent? else LeaverSound(w, task)
  }

  predicate Sound(s: State) {
    TaskSound(s) && forall c :: c in s.callers ==> CallerSound(s.callers[c], s.task)
  }

  lemma TaskStep(s: State, e: Event)
    requires Sound(s) && Enabled(s, e)
    ensures TaskSound(Step(s, e))
  {
  }

  lemma CallerStep(s: State, e: Event, c: CallerId)
    requires Sound(s) && Enabled(s, e)
    requires c in Step(s, e).callers
    ensures CallerSound(Step(s, e).callers[c], Step(s, e).task)
  {
    if c in s.callers {
      assert CallerSound(s.callers[c], s.task);
    }
  }

  lemma {:induction false} RunSound(s: State, events: seq<Event>)
    requires Sound(s)
    ensures Sound(Run(s, events))
    decreases |events|
  {
    if events != [] {
      if Enabled(s, events[0]) {
        TaskStep(s, events[0]);
        forall c | c in Step(s, events[0]).callers
          ensures CallerSound(Step(s, events[0]).callers[c], Step(s, events[0]).task)
        {
          CallerStep(s, events[0], c);
        }
        RunSound(Step(s, events[0]), events[1..]);
      } else {
        RunSound(s, events[1..]);
      }
    }
  }

  lemma Reachable(resources: nat, events: seq<Event>)
    ensures Sound(Run(Initial(resources), events))
  {
    RunSound(Initial(resources), events);
  }

  // ---- the promises ----

  /** No resource is closed twice, and those closed so far are the last ones, last first. */
  lemma ClosedAtMostOnceInReverse(resources: nat, events: seq<Event>)
    ensures var s := Run(Initial(resources), events);
      && |s.attempted| <= resources
      && forall i :: 0 <= i < |s.attempted| ==> s.attempted[i] == resources - 1 - i
  {
    Reachable(resources, events);
    RunResources(Initial(resources), events);
  }

  lemma {:induction false} RunResources(s: State, events: seq<Event>)
    ensures Run(s, events).resources == s.resources
    decreases |events|
  {
    if events != [] {
      RunResources(Advance(s, events[0]), events[1..]);
    }
  }

  // ---- the schedule decides ----

  lemma {:induction false} RunSnoc(s: State, events: seq<Event>, e: Event)
    ensures Run(s, events + [e]) == Advance(Run(s, events), e)
    decreases |events|
  {
    if events == [] {
      assert [e][1..] == [];
      assert Run(s, [e]) == Run(Advance(s, e), []);
    } else {
      assert (events + [e])[1..] == events[1..] + [e];
      RunSnoc(Advance(s, events[0]), events[1..], e);
    }
  }

  /** Some caller has come before the k-th event. */
  predicate ArrivedBefore(events: seq<Event>, k: nat)
    requires k <= |events|
  {
    exists a :: 0 <= a < k && events[a].Arrive?
  }

  /** The task has taken its first step before the k-th event. */
  predicate BegunBefore(events: seq<Event>, k: nat)
    requires k <= |events|
  {
    exists j :: 0 <= j < k && events[j].Begin? && ArrivedBefore(events, j)
  }

  /** The task is cancelled after a caller has created it and before its first step. */
  predicate CancelledFirst(events: seq<Event>) {
    exists i :: 0 <= i < |events| && events[i].Kill? && ArrivedBefore(events, i) && !BegunBefore(events, i)
  }

  lemma PrefixSame(events: seq<Event>, e: Event, k: nat)
    requires k <= |events|
    ensures ArrivedBefore(events + [e], k) == ArrivedBefore(events, k)
    ensures BegunBefore(events + [e], k) == BegunBefore(events, k)
  {
    var longer := events + [e];
    assert forall i :: 0 <= i < k ==> longer[i] == events[i];
    forall j | 0 <= j < k ensures ArrivedBefore(longer, j) == ArrivedBefore(events, j) {
      assert forall i :: 0 <= i < j ==> longer[i] == events[i];
    }
  }

  lemma CancelledFirstSnoc(events: seq<Event>, e: Event)
    ensures CancelledFirst(events + [e]) <==>
      CancelledFirst(events) || (e.Kill? && ArrivedBefore(events, |events|) && !BegunBefore(events, |events|))
  {
    var longer, n := events + [e], |events|;
    forall i | 0 <= i <= n ensures
      ArrivedBefore(longer, i) == ArrivedBefore(events, i) && BegunBefore(longer, i) == BegunBefore(events, i)
    {
      PrefixSame(events, e, i);
    }
    assert longer[n] == e && forall i :: 0 <= i < n ==> longer[i] == events[i];
    if e.Kill? && ArrivedBefore(events, n) && !BegunBefore(events, n) {
      assert longer[n].Kill? && ArrivedBefore(longer, n) && !BegunBefore(longer, n);
    }
    if i :| 0 <= i < n && events[i].Kill? && ArrivedBefore(events, i) && !BegunBefore(events, i) {
      assert longer[i].Kill? && ArrivedBefore(longer, i) && !BegunBefore(longer, i);
    }
  }

  lemma BeforeSnoc(events: seq<Event>, e: Event)
    ensures ArrivedBefore(events + [e], |events| + 1) <==> ArrivedBefore(events, |events|) || e.Arrive?
    ensures BegunBefore(events + [e], |events| + 1) <==>
      BegunBefore(events, |events|) || (e.Begin? && ArrivedBefore(events, |events|))
  {
    var longer, n := events + [e], |events|;
    PrefixSame(events, e, n);
    assert longer[n] == e;
    assert ArrivedBefore(longer, n + 1) <==> ArrivedBefore(longer, n) || longer[n].Arrive?;
    assert BegunBefore(longer, n + 1) <==> BegunBefore(longer, n) || (longer[n].Begin? && ArrivedBefore(longer, n));
  }

  /** Where the task stands, read off the schedule. */
  lemma {:induction false} TaskOfSchedule(resources: nat, events: seq<Event>)
    ensures var task := Run(Initial(resources), events).task;
      && (task.Absent? <==> !ArrivedBefore(events, |events|))
      && (task == Done(Killed) <==> CancelledFirst(events))
      && (task.Created? <==>
            ArrivedBefore(events, |events|) && !BegunBefore(events, |events|) && !CancelledFirst(events))
    decreases |events|
  {
    if events != [] {
      var init, e := events[..|events| - 1], events[|events| - 1];
      assert events == init + [e];
      TaskOfSchedule(resources, init);
      RunSnoc(Initial(resources), init, e);
      CancelledFirstSnoc(init, e);
      BeforeSnoc(init, e);
      Reachable(resources, init);
    }
  }

  /** The task ends without having closed anything exactly if it is cancelled before its first step. */
  lemma KilledIff(resources: nat, events: seq<Event>)
    ensures Run(Initial(resources), events).task == Done(Killed) <==> CancelledFirst(events)
  {
    TaskOfSchedule(resources, events);
  }

  /** And then nothing is ever closed, whatever follows. */
  lemma {:induction false} KilledForGood(s: State, events: seq<Event>)
    requires s.task == Done(Killed)
    ensures Run(s, events).task == Done(Killed) && Run(s, events).attempted == s.attempted
    decreases |events|
  {
    if events != [] {
      KilledForGood(Advance(s, events[0]), events[1..]);
    }
  }

  /** The shortest such schedule: one caller, and the task cancelled at once. */
  lemma KilledAtOnce(resources: nat, events: seq<Event>)
    ensures var s := Run(Initial(resources), [Arrive(0, 0), Kill] + events);
      s.task == Done(Killed) && s.attempted == []
  {
    var start := Advance(Advance(Initial(resources), Arrive(0, 0)), Kill);
    assert ([Arrive(0, 0), Kill] + events)[1..] == [Kill] + events;
    assert ([Kill] + events)[1..] == events;
    assert Run(Initial(resources), [Arrive(0, 0), Kill] + events)
      == Run(Advance(Initial(resources), Arrive(0, 0)), [Kill] + events);
    KilledForGood(start, events);
  }

  /**
    * Once the task is done, every resource was attempted exactly once, whatever failed, unless it was cancelled before
    * its first step.
    */
  lemma EveryResourceAttempted(resources: nat, events: seq<Event>)
    ensures var s := Run(Initial(resources), events);
      s.task.Done? ==>
        if CancelledFirst(events) then s.attempted == []
        else
          && |s.attempted| == |s.settled| == resources
          && (forall k :: 0 <= k < resources ==> k in s.attempted)
          && (s.task.result.Failed? <==> exists i :: 0 <= i < |s.settled| && !s.settled[i])
  {
    Reachable(resources, events);
    RunResources(Initial(resources), events);
    KilledIff(resources, events);
    var s := Run(Initial(resources), events);
    if s.task.Done? && !s.task.result.Killed? {
      forall k | 0 <= k < resources ensures k in s.attempted {
        assert s.attempted[resources - 1 - k] == k;
      }
    }
  }

  // ---- the counter ----

  /** The k-th event wakes the caller when its counter has been taken below the baseline. */
  predicate WakesBelow(resources: nat, events: seq<Event>, c: CallerId, k: nat)
    requires k < |events|
  {
    var s := Run(Initial(resources), events[..k]);
    events[k].Wake? && events[k].c == c && Enabled(s, events[k]) && s.callers[c].cancelling < s.callers[c].baseline
  }

  predicate WokenBelow(resources: nat, events: seq<Event>, c: CallerId) {
    exists k :: 0 <= k < |events| && WakesBelow(resources, events, c, k)
  }

  lemma WokenSnoc(resources: nat, events: seq<Event>, e: Event, c: CallerId)
    ensures WokenBelow(resources, events + [e], c) <==>
      WokenBelow(resources, events, c) || WakesBelow(resources, events + [e], c, |events|)
  {
    var longer := events + [e];
    forall k | 0 <= k < |events| ensures WakesBelow(resources, longer, c, k) == WakesBelow(resources, events, c, k) {
      assert longer[..k] == events[..k] && longer[k] == events[k];
    }
  }

  predicate HasCrossed(s: State, c: CallerId) {
    c in s.callers && s.callers[c].phase == Left(CrossedBaseline)
  }

  lemma CrossedStep(s: State, e: Event, c: CallerId)
    requires Sound(s)
    ensures HasCrossed(Advance(s, e), c) <==>
      HasCrossed(s, c) ||
      (e.Wake? && e.c == c && Enabled(s, e) && s.callers[c].cancelling < s.callers[c].baseline)
  {
  }

  /** A caller is told that its baseline was crossed exactly if it was woken with its counter below it. */
  lemma {:induction false} CrossedIff(resources: nat, events: seq<Event>, c: CallerId)
    ensures HasCrossed(Run(Initial(resources), events), c) <==> WokenBelow(resources, events, c)
    decreases |events|
  {
    if events != [] {
      var init, e := events[..|events| - 1], events[|events| - 1];
      assert events == init + [e];
      CrossedIff(resources, init, c);
      RunSnoc(Initial(resources), init, e);
      Reachable(resources, init);
      CrossedStep(Run(Initial(resources), init), e, c);
      WokenSnoc(resources, init, e, c);
      assert events[..|init|] == init;
    }
  }

  /** Every other caller leaves with its counter back at the baseline, and is below it only if others took from it. */
  lemma LeavesBalanced(resources: nat, events: seq<Event>, c: CallerId)
    ensures var s := Run(Initial(resources), events);
      c in s.callers && s.callers[c].phase.Left? ==>
        var w := s.callers[c];
        && (w.cancelling == w.baseline <==> !WokenBelow(resources, events, c))
        && (WokenBelow(resources, events, c) ==> w.taken > 0)
  {
    Reachable(resources, events);
    CrossedIff(resources, events, c);
  }

  /** What a caller nobody interfered with is told: the failure first, then its own cancellation. */
  lemma OutcomeIff(resources: nat, events: seq<Event>, c: CallerId)
    ensures var s := Run(Initial(resources), events);
      c in s.callers && s.callers[c].phase.Left? && s.callers[c].taken == 0 ==>
        var w, out := s.callers[c], s.callers[c].phase.outcome;
        && s.task.Done?
        && (out == ShutdownError <==> false in s.settled)
        && (out == CancelledError <==>
              CancelledFirst(events) || (false !in s.settled && (w.baseline > 0 || w.asked)))
        && (out == Returned <==> !CancelledFirst(events) && false !in s.settled && w.baseline == 0 && !w.asked)
  {
    Reachable(resources, events);
    KilledIff(resources, events);
    var s := Run(Initial(resources), events);
    if c in s.callers {
      assert CallerSound(s.callers[c], s.task);
    }
  }

  /** All callers are told the same about the resources. */
  lemma SameVerdict(resources: nat, events: seq<Event>, c: CallerId, d: CallerId)
    ensures var s := Run(Initial(resources), events);
      c in s.callers && d in s.callers && s.callers[c].phase.Left? && s.callers[d].phase.Left? &&
      s.callers[c].phase.outcome != CrossedBaseline && s.callers[d].phase.outcome != CrossedBaseline ==>
        (s.callers[c].phase.outcome == ShutdownError <==> s.callers[d].phase.outcome == ShutdownError)
  {
    Reachable(resources, events);
  }

  /** Cancelling a waiting caller never touches the close task. */
  lemma CancellationIsShielded(s: State, e: Event)
    requires Enabled(s, e)
    requires e.Cancel? || e.Uncancel? || e.Wake?
    ensures Step(s, e).task == s.task && Step(s, e).attempted == s.attempted && Step(s, e).settled == s.settled
  {
  }

  function Wakes(c: CallerId, outcomes: seq<bool>): seq<Event> {
    if outcomes == [] then [Wake(c, false)] else [Settle(outcomes[0])] + Wakes(c, outcomes[1..])
  }

  /** However the resources behave, closing them all lets a waiting caller leave. */
  lemma {:induction false} WaitingEnds(s: State, c: CallerId, outcomes: seq<bool>)
    requires Sound(s) && IsWaiting(s, c)
    requires if s.task.Closing? then |outcomes| == s.task.left else s.task.Done? && s.task != Done(Killed) && outcomes == []
    ensures c in Run(s, Wakes(c, outcomes)).callers && Run(s, Wakes(c, outcomes)).callers[c].phase.Left?
    decreases |outcomes|
  {
    if outcomes == [] {
      assert Run(s, [Wake(c, false)]) == Run(Step(s, Wake(c, false)), []);
    } else {
      var next := Step(s, Settle(outcomes[0]));
      RunSound(s, [Settle(outcomes[0])]);
      assert Run(s, [Settle(outcomes[0])]) == Run(next, []);
      assert Wakes(c, outcomes)[1..] == Wakes(c, outcomes[1..]);
      WaitingEnds(next, c, outcomes[1..]);
    }
  }

  // ---- the runtime object ----

  class DemoRuntime {
    const resources: nat
    var task: Task
    var attempted: seq<nat>
    var settled: seq<bool>
    var callers: map<CallerId, Caller>

    constructor (resources: nat)
      ensures Abstract() == Initial(resources)
    {
      this.resources := resources;
      task, attempted, settled, callers := Absent, [], [], map[];
    }

    function Abstract(): State
      reads this
    {
      State(resources, task, attempted, settled, callers)
    }

    /** The first caller creates the task; its cancellation count at this moment is the baseline. */
    method AClose(c: CallerId, cancelling: nat)
      requires Enabled(Abstract(), Arrive(c, cancelling))
      modifies this
      ensures Abstract() == Step(old(Abstract()), Arrive(c, cancelling))
    {
      if task.Absent? {
        task := Created;
      }
      var w := Caller(Waiting, cancelling, cancelling, cancelling > 0, false, false, 0);
      if task.Done? {
        w := w.(phase := Left(Conclude(task.result, w.requested)));
      }
      callers := callers[c := w];
    }

    method CancelCaller(c: CallerId)
      requires Enabled(Abstract(), Cancel(c))
      modifies this`callers
      ensures Abstract() == Step(old(Abstract()), Cancel(c))
    {
      var w := callers[c];
      callers := callers[c := w.(cancelling := w.cancelling + 1, poked := true, asked := true)];
    }

    method UncancelCaller(c: CallerId)
      requires Enabled(Abstract(), Uncancel(c))
      modifies this`callers
      ensures Abstract() == Step(old(Abstract()), Uncancel(c))
    {
      var w := callers[c];
      callers := callers[c := w.(cancelling := w.cancelling - 1, taken := w.taken + 1)];
    }

    /** The head of the closing loop. */
    method CloseNext(left: nat, failed: bool)
      modifies this`task, this`attempted
      ensures Abstract() == Next(old(Abstract()), left, failed)
    {
      if left == 0 {
        task := Done(if failed then Failed else Closed);
      } else {
        attempted := attempted + [left - 1];
        task := Closing(left, failed);
      }
    }

    method BeginClosing()
      requires Enabled(Abstract(), Begin)
      modifies this
      ensures Abstract() == Step(old(Abstract()), Begin)
    {
      CloseNext(resources, false);
    }

    /** One resource has closed or raised; whatever it raised is only remembered as a failure. */
    method SettleResource(ok: bool)
      requires Enabled(Abstract(), Settle(ok))
      modifies this
      ensures Abstract() == Step(old(Abstract()), Settle(ok))
    {
      var failed := task.failed;
      if !ok {
        failed := true;
      }
      settled := settled + [ok];
      CloseNext(task.left - 1, failed);
    }

    /** Withdraws every cancellation above the baseline, one by one; fails below it. */
    method Balance(baseline: nat, cancelling: nat) returns (balanced: nat, excess: bool, crossed: bool)
      ensures crossed <==> cancelling < baseline
      ensures balanced == if crossed then cancelling else baseline
      ensures excess <==> cancelling > baseline
    {
      balanced := cancelling;
      if cancelling < baseline {
        return cancelling, false, true;
      }
      excess := cancelling - baseline > 0;
      for i := 0 to cancelling - baseline
        invariant balanced == cancelling - i
      {
        balanced := balanced - 1;
      }
      crossed := false;
    }

    method WakeCaller(c: CallerId, cancelled: bool)
      requires Enabled(Abstract(), Wake(c, cancelled))
      modifies this`callers
      ensures Abstract() == Step(old(Abstract()), Wake(c, cancelled))
    {
      var w := callers[c];
      var requested := w.requested;
      if cancelled {
        requested := true;
      }
      var balanced, excess, crossed := Balance(w.baseline, w.cancelling);
      if crossed {
        callers := callers[c := w.(phase := Left(CrossedBaseline), requested := requested)];
        return;
      }
      if excess {
        requested := true;
      }
      w := w.(cancelling := balanced, requested := requested, poked := false);
      if task.Done? {
        w := w.(phase := Left(Conclude(task.result, requested)));
      }
      callers := callers[c := w];
    }
  }
}
