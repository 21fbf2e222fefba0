/**
  Applying a recommendation (internal/service/campaign_actions.go): any number of concurrent callers
  compare-and-set one status column, and one of them may send a change to the marketplace.
*/
module Recommendations {
  import opened Numeric

  datatype Status = Active | Applying | ApplyUnknown | Completed | Dismissed | Invalidated

  /** The compare-and-set that claims, releases, completes and marks a recommendation. */
  function Transition(s: Status, from: Status, to: Status): Status {
    if s == from then to else s
  }

  // ------------------------------------------------------------------- one caller

  /** What the preparations, the marketplace and the two database writes will say. */
  datatype Luck = Luck(prepared: bool, sent: bool, recorded: bool, completes: bool)

  class Recommendation {
    var status: Status
    var calls: nat // calls sent to the marketplace

    method Move(from: Status, to: Status) returns (moved: bool)
      modifies this`status
      ensures moved == (old(status) == from) && status == Transition(old(status), from, to)
    {
      moved := status == from;
      if moved {
        status := to;
      }
    }

    /**
      One undisturbed application, with the deferred release or mark at its end. Only a caller that
      found the recommendation active calls; no call leaves the status as it was; a call leaves it
      completed if everything after it succeeded and unknown otherwise.
    */
    method Apply(luck: Luck) returns (ok: bool)
      modifies this
      ensures calls == old(calls) + (if old(status).Active? && luck.prepared then 1 else 0)
      ensures calls == old(calls) ==> status == old(status) && !ok
      ensures calls > old(calls) ==> status == if ok then Completed else ApplyUnknown
      ensures ok <==> old(status).Active? && luck.prepared && luck.sent && luck.recorded && luck.completes
    {
      ok := false;
      var claimed := Move(Active, Applying);
      if !claimed {
        return;
      }
      var releaseClaim := true;
      if luck.prepared {
        releaseClaim := false;
        calls := calls + 1;
        if luck.sent && luck.recorded && luck.completes {
          ok := Move(Applying, Completed);
        }
      }
      if releaseClaim {
        var _ := Move(Applying, Active);
      } else {
        var _ := Move(Applying, ApplyUnknown);
      }
    }
  }

  // ----------------------------------------------------------------- many callers

  datatype Phase = Outside | SawActive | Preparing | Sent(ok: bool) | Finishing

  datatype State = State(status: Status, callers: map<nat, Phase>, writes: seq<nat>)

  function PhaseOf(s: State, c: nat): Phase {
    if c in s.callers then s.callers[c] else Outside
  }

  function Moved(s: State, c: nat, p: Phase): State {
    s.(callers := s.callers[c := p])
  }

  datatype Step =
    | Look(c: nat)
    | Claim(c: nat)
    | Release(c: nat)
    | Send(c: nat, ok: bool)
    | Complete(c: nat)
    | MarkUnknown(c: nat)
    | Vanish(c: nat)        // the caller is gone, or its deferred statement failed
    | SetStatus(to: Status) // the operator
    | Invalidate            // a lifecycle change of the campaign, or the clean-up of orphans

  predicate Enabled(s: State, step: Step) {
    match step
    case Look(c) => PhaseOf(s, c).Outside? && s.status.Active?
    case Claim(c) => PhaseOf(s, c).SawActive?
    case Release(c) => PhaseOf(s, c).Preparing?
    case Send(c, _) => PhaseOf(s, c).Preparing?
    case Complete(c) => PhaseOf(s, c) == Sent(true)
    case MarkUnknown(c) => PhaseOf(s, c).Sent? || PhaseOf(s, c).Finishing?
    case Vanish(_) => true
    case SetStatus(to) => to.Active? || to.Completed? || to.Dismissed?
    case Invalidate => true
  }

  function Do(s: State, step: Step): State
    requires Enabled(s, step)
  {
    match step
    case Look(c) => Moved(s, c, SawActive)
    case Claim(c) =>
      Moved(s, c, if s.status.Active? then Preparing else Outside).(status := Transition(s.status, Active, Applying))
    case Release(c) => Moved(s, c, Outside).(status := Transition(s.status, Applying, Active))
    case Send(c, ok) => Moved(s, c, Sent(ok)).(writes := s.writes + [c])
    case Complete(c) => Moved(s, c, Finishing).(status := Transition(s.status, Applying, Completed))
    case MarkUnknown(c) => Moved(s, c, Outside).(status := Transition(s.status, Applying, ApplyUnknown))
    case Vanish(c) => Moved(s, c, Outside)
    case SetStatus(to) => s.(status := to)
    case Invalidate => s.(status := Transition(s.status, Active, Invalidated))
  }

  ghost predicate Initial(s: State) {
    s.status.Active? && s.callers == map[] && s.writes == []
  }

  /** A caller that has claimed and not finished. */
  predicate Holds(p: Phase) {
    p.Preparing? || p.Sent? || p.Finishing?
  }

  /** Nobody holds a claim and nothing has been sent. */
  ghost predicate Untouched(s: State) {
    s.writes == [] && forall c: nat :: !Holds(PhaseOf(s, c))
  }

  /** The operator sets a recommendation back to active only while it is untouched. */
  ghost predicate Careful(s: State, step: Step) {
    step == SetStatus(Active) ==> Untouched(s)
  }

  ghost predicate Leads(s: State, script: seq<Step>, t: State)
    decreases |script|
  {
    if script == [] then s == t
    else Enabled(s, script[0]) && Leads(Do(s, script[0]), script[1..], t)
  }

  ghost predicate CarefullyLeads(s: State, script: seq<Step>, t: State)
    decreases |script|
  {
    if script == [] then s == t
    else
      Enabled(s, script[0]) && Careful(s, script[0]) && CarefullyLeads(Do(s, script[0]), script[1..], t)
  }

  // ------------------------------------------------------------------------ safety

  ghost predicate Inv(s: State) {
    && |s.writes| <= 1
    && (forall c: nat, d: nat | Holds(PhaseOf(s, c)) && Holds(PhaseOf(s, d)) :: c == d)
    && (forall c: nat | Holds(PhaseOf(s, c)) :: !s.status.Active? && (PhaseOf(s, c).Preparing? <==> s.writes == []))
    && (s.writes != [] ==> !s.status.Active?)
  }

  function Actor(step: Step): Option<nat> {
    match step
    case SetStatus(_) => None
    case Invalidate => None
    case _ => Some(step.c)
  }

  lemma OthersStandStill(s: State, step: Step)
    requires Enabled(s, step)
    ensures forall c: nat | Actor(step) != Some(c) :: PhaseOf(Do(s, step), c) == PhaseOf(s, c)
  {
  }

  lemma InvKept(s: State, step: Step)
    requires Inv(s) && Enabled(s, step) && Careful(s, step)
    ensures Inv(Do(s, step))
    ensures s.writes != [] ==> Do(s, step).writes == s.writes
  {
    OthersStandStill(s, step);
  }

  /**
    At most one of the callers ever sends a change, and after a change was sent the recommendation is
    never active again, whatever the callers, the operator and the clean-up do in whatever order.
  */
  lemma {:induction false} OneWriteForAllCallers(s: State, script: seq<Step>, t: State)
    requires Inv(s) && CarefullyLeads(s, script, t)
    ensures Inv(t) && |t.writes| <= 1 && (t.writes != [] ==> !t.status.Active?)
    ensures s.writes != [] ==> t.writes == s.writes
    decreases |script|
  {
    if script != [] {
      InvKept(s, script[0]);
      OneWriteForAllCallers(Do(s, script[0]), script[1..], t);
    }
  }

  lemma InitialIsSafe(s: State)
    requires Initial(s)
    ensures Inv(s) && Telling(s)
  {
  }

  lemma CompletedIsFinal(s: State, step: Step)
    requires Enabled(s, step) && s.status.Completed? && !step.SetStatus?
    ensures Do(s, step).status.Completed?
  {
  }

  // ------------------------------------------------ what the status says about writes

  /** Without an operator the status tells whether something was sent. */
  ghost predicate Telling(s: State) {
    && (s.status.Active? || s.status.Invalidated? ==> s.writes == [])
    && (s.status.Completed? || s.status.ApplyUnknown? ==> |s.writes| == 1)
    && !s.status.Dismissed?
    && (forall c: nat | Holds(PhaseOf(s, c)) && !PhaseOf(s, c).Preparing? :: s.writes != [])
    && (s.status.Active? || s.status.Invalidated? ==> forall c: nat :: !Holds(PhaseOf(s, c)))
    && (forall c: nat | PhaseOf(s, c).Preparing? :: s.status.Applying?)
  }

  lemma {:induction false} StatusTellsWrites(s: State, script: seq<Step>, t: State)
    requires Inv(s) && Telling(s) && Leads(s, script, t) && forall step | step in script :: !step.SetStatus?
    ensures Inv(t) && Telling(t)
    decreases |script|
  {
    if script != [] {
      InvKept(s, script[0]);
      TellingKept(s, script[0]);
      StatusTellsWrites(Do(s, script[0]), script[1..], t);
    }
  }

  lemma TellingKept(s: State, step: Step)
    requires Inv(s) && Telling(s) && Enabled(s, step) && !step.SetStatus?
    ensures Telling(Do(s, step))
  {
    OthersStandStill(s, step);
  }

  // ------------------------------------------------------ when reopening is harmless

  lemma First(s: State, step: Step, script: seq<Step>, t: State)
    requires Enabled(s, step) && Leads(Do(s, step), script, t)
    ensures Leads(s, [step] + script, t)
  {
    assert ([step] + script)[1..] == script;
  }

  /** The operator stays away. */
  ghost predicate Quietly(s: State, script: seq<Step>, t: State) {
    Leads(s, script, t) && forall step | step in script :: !step.SetStatus?
  }

  lemma {:induction false} QuietIsCareful(s: State, script: seq<Step>, t: State)
    requires Quietly(s, script, t)
    ensures CarefullyLeads(s, script, t)
    decreases |script|
  {
    if script != [] {
      QuietIsCareful(Do(s, script[0]), script[1..], t);
    }
  }

  /** Once a touched recommendation is active again, a new caller sends a change, and so can the old one. */
  lemma ReopenedIsSentTwice(s: State, b: nat) returns (script: seq<Step>, t: State)
    requires Inv(s) && !Untouched(s) && PhaseOf(s, b).Outside?
    ensures Quietly(s.(status := Active), script, t) && |t.writes| >= 2
  {
    var s0 := s.(status := Active);
    var s1 := Do(s0, Look(b));
    var s2 := Do(s1, Claim(b));
    var s3 := Do(s2, Send(b, true));
    if s.writes != [] {
      t, script := s3, [Send(b, true)];
      First(s2, Send(b, true), [], s3);
    } else {
      var a: nat :| Holds(PhaseOf(s, a));
      t := Do(s3, Send(a, true));
      First(s3, Send(a, true), [], t);
      First(s2, Send(b, true), [Send(a, true)], t);
      script := [Send(b, true)] + [Send(a, true)];
    }
    First(s1, Claim(b), script, t);
    First(s0, Look(b), [Claim(b)] + script, t);
    script := [Look(b)] + ([Claim(b)] + script);
  }

  /**
    Setting a recommendation back to active is harmless exactly while nobody holds a claim and nothing
    was sent: then whatever the callers do next, at most one change is sent; otherwise two can be.
  */
  lemma ReopenIsSafeIff(s: State, b: nat)
    requires Inv(s) && PhaseOf(s, b).Outside?
    ensures Untouched(s) <==> forall script, t | Quietly(s.(status := Active), script, t) :: |t.writes| <= 1
  {
    var s0 := s.(status := Active);
    if Untouched(s) {
      assert forall c: nat :: PhaseOf(s0, c) == PhaseOf(s, c);
      forall script, t | Quietly(s0, script, t) ensures |t.writes| <= 1 {
        QuietIsCareful(s0, script, t);
        OneWriteForAllCallers(s0, script, t);
      }
    } else {
      var script, t := ReopenedIsSentTwice(s, b);
    }
  }
}
