/**
  * What a caller of a closing runtime is told, in terms of what has happened to it: which cancellation count it came
  * with, whether anybody cancelled it while it waited, and whether anybody withdrew a cancellation.
  */
module ShutdownHistory {
  import opened Shutdown

  /** The event is in the schedule at a place where it could happen. */
  predicate Happened(resources: nat, events: seq<Event>, e: Event) {
    exists k :: 0 <= k < |events| && events[k] == e && Enabled(Run(Initial(resources), events[..k]), e)
  }

  lemma HappenedSnoc(resources: nat, events: seq<Event>, last: Event, e: Event)
    ensures Happened(resources, events + [last], e) <==>
      Happened(resources, events, e) || (e == last && Enabled(Run(Initial(resources), events), e))
  {
    var longer := events + [last];
    assert forall k :: 0 <= k < |events| ==> longer[k] == events[k] && longer[..k] == events[..k];
    assert longer[|events|] == last && longer[..|events|] == events;
  }

  /** One step writes the history of a caller. */
  lemma HistoryStep(s: State, e: Event, c: CallerId)
    requires c in Advance(s, e).callers
    ensures var w := Advance(s, e).callers[c];
      if c !in s.callers then
        && e.Arrive? && e.c == c && w.baseline == e.cancelling && !w.asked && w.taken == 0
      else
        && w.baseline == s.callers[c].baseline
        && (w.asked <==> s.callers[c].asked || (e == Cancel(c) && Enabled(s, e)))
        && (w.taken > 0 <==> s.callers[c].taken > 0 || (e == Uncancel(c) && Enabled(s, e)))
  {
  }

  lemma SettledStep(s: State, e: Event)
    ensures false in Advance(s, e).settled <==> false in s.settled || (e == Settle(false) && Enabled(s, e))
  {
  }

  lemma {:induction false} NobodyYet(resources: nat, events: seq<Event>, c: CallerId)
    requires forall k :: 0 <= k < |events| ==> !(events[k].Arrive? && events[k].c == c)
    ensures c !in Run(Initial(resources), events).callers
    decreases |events|
  {
    if events != [] {
      var init, e := events[..|events| - 1], events[|events| - 1];
      assert events == init + [e];
      NobodyYet(resources, init, c);
      RunSnoc(Initial(resources), init, e);
    }
  }

  /** The history kept with a caller is what has happened in the schedule. */
  lemma {:induction false} HistoryIsTrue(resources: nat, events: seq<Event>, c: CallerId)
    ensures var s := Run(Initial(resources), events);
      if c in s.callers then
        && (s.callers[c].asked <==> Happened(resources, events, Cancel(c)))
        && (s.callers[c].taken > 0 <==> Happened(resources, events, Uncancel(c)))
      else !Happened(resources, events, Cancel(c)) && !Happened(resources, events, Uncancel(c))
    decreases |events|
  {
    if events != [] {
      var init, e := events[..|events| - 1], events[|events| - 1];
      assert events == init + [e];
      HistoryIsTrue(resources, init, c);
      RunSnoc(Initial(resources), init, e);
      HappenedSnoc(resources, init, e, Cancel(c));
      HappenedSnoc(resources, init, e, Uncancel(c));
      var s := Run(Initial(resources), init);
      if c in Advance(s, e).callers {
        HistoryStep(s, e, c);
      }
    }
  }

  lemma {:induction false} FailuresAreSettled(resources: nat, events: seq<Event>)
    ensures false in Run(Initial(resources), events).settled <==> Happened(resources, events, Settle(false))
    decreases |events|
  {
    if events != [] {
      var init, e := events[..|events| - 1], events[|events| - 1];
      assert events == init + [e];
      FailuresAreSettled(resources, init);
      RunSnoc(Initial(resources), init, e);
      HappenedSnoc(resources, init, e, Settle(false));
      SettledStep(Run(Initial(resources), init), e);
    }
  }

  /** The k-th event is the first coming of the caller, with this cancellation count. */
  predicate FirstComing(events: seq<Event>, c: CallerId, k: nat, cancelling: nat)
    requires k < |events|
  {
    && events[k] == Arrive(c, cancelling)
    && forall i :: 0 <= i < k ==> !(events[i].Arrive? && events[i].c == c)
  }

  /** A caller's baseline is the count it first came with, whatever happens to its counter afterwards. */
  lemma {:induction false} BaselineIsFirst(resources: nat, events: seq<Event>, c: CallerId, k: nat, cancelling: nat)
    requires k < |events| && FirstComing(events, c, k, cancelling)
    ensures var s := Run(Initial(resources), events);
      c in s.callers && s.callers[c].baseline == cancelling
    decreases |events|
  {
    var init, e := events[..|events| - 1], events[|events| - 1];
    assert events == init + [e];
    RunSnoc(Initial(resources), init, e);
    if k == |init| {
      NobodyYet(resources, init, c);
    } else {
      BaselineIsFirst(resources, init, c, k, cancelling);
      HistoryStep(Run(Initial(resources), init), e, c);
    }
  }

  /** What a caller from which nobody took a cancellation is told, read off the schedule alone. */
  lemma OutcomeOfSchedule(resources: nat, events: seq<Event>, c: CallerId, k: nat, cancelling: nat)
    requires k < |events| && FirstComing(events, c, k, cancelling)
    requires !Happened(resources, events, Uncancel(c))
    ensures var s := Run(Initial(resources), events);
      var failed, asked := Happened(resources, events, Settle(false)), Happened(resources, events, Cancel(c));
      c in s.callers && (s.callers[c].phase.Left? ==>
        var out := s.callers[c].phase.outcome;
        && (out == ShutdownError <==> failed)
        && (out == CancelledError <==> CancelledFirst(events) || (!failed && (cancelling > 0 || asked)))
        && (out == Returned <==> !CancelledFirst(events) && !failed && cancelling == 0 && !asked))
  {
    BaselineIsFirst(resources, events, c, k, cancelling);
    HistoryIsTrue(resources, events, c);
    FailuresAreSettled(resources, events);
    OutcomeIff(resources, events, c);
  }
}
