/**
  The workspace's daily allowance: how many automated changes one Moscow day may carry, whatever
  the operator does to the cap during the day, and where the count can be escaped.
*/
module DailyCap {
  import opened Numeric
  import opened WriteProtocol
  import opened WriteSafety

  // ------------------------------------------------------- what one step can do

  /** A new row records the worker's plan, and a charged one was counted against its window. */
  ghost predicate ClaimRecorded(s: State, step: Step, t: State) {
    |t.actions| > |s.actions| ==>
      var row := t.actions[|s.actions|];
      && step.Claim? && PhaseOf(s, step.w).Ready? && PhaseOf(t, step.w) != PhaseOf(s, step.w)
      && row.plan == PhaseOf(s, step.w).plan && row.guardAt == PhaseOf(s, step.w).guardAt
      && row.createdAt == s.now && row.cap == s.settings.cap
      && t.actions == s.actions + [row] && t.audits == s.audits
      && (Charged(row.status) ==> |ChargedOn(s, MoscowDay(PhaseOf(s, step.w).windowAt))| < row.cap)
  }

  /** Time passes, and a worker that becomes ready has just read the clock. */
  ghost predicate ClockEvolves(s: State, step: Step, t: State) {
    && s.now <= t.now
    && (forall w: nat | PhaseOf(t, w).Ready? && PhaseOf(t, w) != PhaseOf(s, w) ::
          step == ReadCap(w) && PhaseOf(t, w).windowAt == s.now && t.actions == s.actions)
  }

  lemma StepRecordsClaim(s: State, step: Step)
    requires Enabled(s, step)
    ensures ClaimRecorded(s, step, Do(s, step))
  {
    hide GuardPasses, HasUnresolved, KeyTaken, ChargedOn;
  }

  lemma StepMovesClock(s: State, step: Step)
    requires Enabled(s, step)
    ensures ClockEvolves(s, step, Do(s, step))
  {
    hide GuardPasses, HasUnresolved, KeyTaken, ChargedOn;
  }

  // ------------------------------------------------------------------- the bound

  /** The actions charged to a day, up to and including one of them. */
  ghost function ChargedUpTo(s: State, day: int, id: nat): set<nat> {
    set i | i in ChargedOn(s, day) && i <= id
  }

  /** Each charged action, counted with those before it, fits the cap configured when it was claimed. */
  ghost predicate WithinCaps(s: State) {
    forall id: nat | id < |s.actions| && Charged(s.actions[id].status) ::
      |ChargedUpTo(s, MoscowDay(s.actions[id].createdAt), id)| <= s.actions[id].cap
  }

  /** A step that charges a new action finds the day it lands in below the configured cap. */
  ghost predicate Fits(s: State, t: State) {
    |t.actions| > |s.actions| && Charged(t.actions[|s.actions|].status) ==>
      |ChargedOn(s, MoscowDay(s.now))| < s.settings.cap
  }

  ghost predicate FittingRun(r: Run) {
    |r.states| == |r.steps| + 1 && forall k | 0 <= k < |r.steps| :: Fits(r.states[k], r.states[k + 1])
  }

  /** A claim lands in the day its worker counted, or in a day that carries nothing yet. */
  ghost predicate Timely(s: State, step: Step) {
    step.Claim? && PhaseOf(s, step.w).Ready? ==>
      || MoscowDay(s.now) == MoscowDay(PhaseOf(s, step.w).windowAt)
      || ChargedOn(s, MoscowDay(s.now)) == {}
  }

  lemma Subset(a: set<nat>, b: set<nat>)
    requires a <= b
    ensures |a| <= |b|
  {
    var rest := b - a;
    assert b == a + rest;
  }

  /** No step returns a charge: what is charged afterwards was charged before, or is the new claim. */
  lemma ChargesOnlyGrowByClaims(s: State, t: State, day: int)
    requires RowsEvolve(s, t)
    ensures forall i | i in ChargedOn(t, day) :: i in ChargedOn(s, day) || i == |s.actions|
  {
  }

  lemma StaysWithinCaps(s: State, step: Step, t: State)
    requires WithinCaps(s) && RowsEvolve(s, t) && ClaimRecorded(s, step, t) && Fits(s, t)
    ensures WithinCaps(t)
  {
    forall id: nat | id < |t.actions| && Charged(t.actions[id].status)
      ensures |ChargedUpTo(t, MoscowDay(t.actions[id].createdAt), id)| <= t.actions[id].cap
    {
      var day := MoscowDay(t.actions[id].createdAt);
      ChargesOnlyGrowByClaims(s, t, day);
      if id < |s.actions| {
        assert SameClaim(s.actions[id], t.actions[id]);
        Subset(ChargedUpTo(t, day, id), ChargedUpTo(s, day, id));
      } else {
        Subset(ChargedUpTo(t, day, id), ChargedOn(s, day) + {id});
      }
    }
  }

  /** A new charged action that is within its cap has found room in its day. */
  lemma WithinCapsFits(s: State, step: Step, t: State)
    requires RowsEvolve(s, t) && ClaimRecorded(s, step, t) && WithinCaps(t)
    ensures Fits(s, t)
  {
    if |t.actions| > |s.actions| && Charged(t.actions[|s.actions|].status) {
      var id, day := |s.actions|, MoscowDay(s.now);
      assert ChargedUpTo(t, day, id) == ChargedOn(s, day) + {id};
    }
  }

  lemma {:induction false} WithinCapsAlways(r: Run, i: nat)
    requires IsRun(r) && FittingRun(r) && i < |r.states|
    ensures WithinCaps(r.states[i])
  {
    hide Enabled, Do;
    if i > 0 {
      var s, step := r.states[i - 1], r.steps[i - 1];
      WithinCapsAlways(r, i - 1);
      StepMovesRows(s, step);
      StepRecordsClaim(s, step);
      StaysWithinCaps(s, step, r.states[i]);
    }
  }

  /**
    The exact condition, for any number of workers: no charged action of a run ever exceeds the cap of
    its claim if and only if every claim that is admitted finds the day it lands in below the cap.
  */
  lemma CapsAreKeptIff(r: Run)
    requires IsRun(r)
    ensures (forall i | 0 <= i < |r.states| :: WithinCaps(r.states[i])) <==> FittingRun(r)
  {
    hide Enabled, Do;
    if FittingRun(r) {
      forall i | 0 <= i < |r.states| ensures WithinCaps(r.states[i]) {
        WithinCapsAlways(r, i);
      }
    }
    if forall i | 0 <= i < |r.states| :: WithinCaps(r.states[i]) {
      forall k | 0 <= k < |r.steps| ensures Fits(r.states[k], r.states[k + 1]) {
        StepMovesRows(r.states[k], r.steps[k]);
        StepRecordsClaim(r.states[k], r.steps[k]);
        WithinCapsFits(r.states[k], r.steps[k], r.states[k + 1]);
      }
    }
  }

  /** Timely claims fit: the claim counted the day it lands in, or lands in an empty one. */
  lemma TimelyFits(s: State, step: Step, t: State)
    requires ClaimRecorded(s, step, t) && Timely(s, step)
    ensures Fits(s, t)
  {
  }

  /** The marketplace calls whose action is charged to a day. */
  ghost function CallsChargedOn(s: State, day: int): set<nat> {
    set k: nat | k < |s.writes| && s.writes[k].id in ChargedOn(s, day)
  }

  lemma {:induction false} Injection(s: State, calls: set<nat>, ids: set<nat>)
    requires WrittenOnce(s)
    requires forall k | k in calls :: k < |s.writes| && s.writes[k].id in ids
    ensures |calls| <= |ids|
  {
    if calls != {} {
      var k :| k in calls;
      Injection(s, calls - {k}, ids - {s.writes[k].id});
    }
  }

  lemma {:induction false} Latest(ids: set<nat>) returns (m: nat)
    requires ids != {}
    ensures m in ids && forall i | i in ids :: i <= m
  {
    var x :| x in ids;
    if ids == {x} {
      m := x;
    } else {
      var y := Latest(ids - {x});
      m := Max(x, y);
      forall i | i in ids ensures i <= m {
        assert i == x || i in ids - {x};
      }
    }
  }

  /**
    In every run whose admitted claims fit, the calls charged to a Moscow day, and the actions charged
    to it, number at most the cap configured at the latest of that day's charged claims.
  */
  lemma DayWithinCap(r: Run, i: nat, day: int) returns (id: nat)
    requires IsRun(r) && i < |r.states| && ChargedOn(r.states[i], day) != {}
    requires FittingRun(r)
    ensures id in ChargedOn(r.states[i], day)
    ensures |CallsChargedOn(r.states[i], day)| <= |ChargedOn(r.states[i], day)| <= r.states[i].actions[id].cap
  {
    hide Enabled, Do;
    var s := r.states[i];
    id := Latest(ChargedOn(s, day));
    WithinCapsAlways(r, i);
    assert ChargedUpTo(s, day, id) == ChargedOn(s, day);
    InvAlways(r, i);
    Injection(s, CallsChargedOn(s, day), ChargedOn(s, day));
  }

  /** The cap recorded with an action is the one the operator had configured at its claim. */
  lemma CapWasInForce(s: State, step: Step)
    requires Enabled(s, step) && |Do(s, step).actions| > |s.actions|
    ensures Do(s, step).actions[|s.actions|].cap == s.settings.cap
    ensures Do(s, step).actions[|s.actions|].createdAt == s.now
  {
    StepRecordsClaim(s, step);
  }

  // ------------------------------------------------------------------ one worker

  ghost predicate OneWorker(r: Run, w: nat) {
    forall k | 0 <= k < |r.steps| :: Actor(r.steps[k]).Some? ==> Actor(r.steps[k]) == Some(w)
  }

  /** No action is younger than the clock reading of the ready worker. */
  ghost predicate ReadAfterClaims(s: State, w: nat) {
    && (forall i | 0 <= i < |s.actions| :: s.actions[i].createdAt <= s.now)
    && (PhaseOf(s, w).Ready? ==>
          && PhaseOf(s, w).windowAt <= s.now
          && forall i | 0 <= i < |s.actions| :: s.actions[i].createdAt <= PhaseOf(s, w).windowAt)
  }

  lemma StillReadAfterClaims(s: State, step: Step, t: State, w: nat)
    requires ReadAfterClaims(s, w) && (Actor(step).Some? ==> Actor(step) == Some(w))
    requires RowsEvolve(s, t) && ClaimRecorded(s, step, t) && ClockEvolves(s, step, t)
    ensures ReadAfterClaims(t, w)
  {
    forall i | 0 <= i < |s.actions| ensures t.actions[i].createdAt == s.actions[i].createdAt {
      assert SameClaim(s.actions[i], t.actions[i]);
    }
  }

  lemma {:induction false} AlwaysReadAfterClaims(r: Run, w: nat, i: nat)
    requires IsRun(r) && OneWorker(r, w) && i < |r.states|
    ensures ReadAfterClaims(r.states[i], w)
  {
    hide Enabled, Do;
    if i > 0 {
      var s, step := r.states[i - 1], r.steps[i - 1];
      AlwaysReadAfterClaims(r, w, i - 1);
      StepMovesRows(s, step);
      StepRecordsClaim(s, step);
      StepMovesClock(s, step);
      StillReadAfterClaims(s, step, r.states[i], w);
    }
  }

  lemma DaysGrow(a: int, b: int)
    requires a <= b
    ensures MoscowDay(a) <= MoscowDay(b)
  {
  }

  /** A single worker is always timely, even when midnight falls between its count and its claim. */
  lemma OneWorkerIsTimely(r: Run, w: nat)
    requires IsRun(r) && OneWorker(r, w)
    ensures forall k | 0 <= k < |r.steps| :: Timely(r.states[k], r.steps[k])
  {
    hide Enabled, Do;
    forall k | 0 <= k < |r.steps| && r.steps[k].Claim? && PhaseOf(r.states[k], r.steps[k].w).Ready?
      ensures Timely(r.states[k], r.steps[k])
    {
      var s := r.states[k];
      assert Actor(r.steps[k]) == Some(w);
      AlwaysReadAfterClaims(r, w, k);
      DaysGrow(PhaseOf(s, w).windowAt, s.now);
      forall i: nat | i < |s.actions| ensures MoscowDay(s.actions[i].createdAt) <= MoscowDay(PhaseOf(s, w).windowAt) {
        DaysGrow(s.actions[i].createdAt, PhaseOf(s, w).windowAt);
      }
    }
  }

  lemma TimelyRunFits(r: Run)
    requires IsRun(r) && forall k | 0 <= k < |r.steps| :: Timely(r.states[k], r.steps[k])
    ensures FittingRun(r)
  {
    hide Enabled, Do;
    forall k | 0 <= k < |r.steps| ensures Fits(r.states[k], r.states[k + 1]) {
      StepRecordsClaim(r.states[k], r.steps[k]);
      TimelyFits(r.states[k], r.steps[k], r.states[k + 1]);
    }
  }

  lemma OneWorkerFits(r: Run, w: nat)
    requires IsRun(r) && OneWorker(r, w)
    ensures FittingRun(r)
  {
    hide Enabled, Do, Timely, Fits;
    OneWorkerIsTimely(r, w);
    TimelyRunFits(r);
  }

  /** With one worker the daily allowance holds in every run, without any condition on time. */
  lemma OneWorkerDayWithinCap(r: Run, w: nat, i: nat, day: int) returns (id: nat)
    requires IsRun(r) && OneWorker(r, w) && i < |r.states| && ChargedOn(r.states[i], day) != {}
    ensures id in ChargedOn(r.states[i], day)
    ensures |CallsChargedOn(r.states[i], day)| <= |ChargedOn(r.states[i], day)| <= r.states[i].actions[id].cap
  {
    OneWorkerFits(r, w);
    id := DayWithinCap(r, i, day);
  }

  // ---------------------------------------------------------------- on the clock itself

  /** The actions created from one time to another that are pending, unknown or applied. */
  ghost function CountedBetween(s: State, from: int, to: int): set<nat> {
    set i: nat | i < |s.actions| && from <= s.actions[i].createdAt < to
                 && (s.actions[i].status.Pending? || s.actions[i].status.Unknown? || s.actions[i].status.Applied?)
  }

  /** The midnight that begins a Moscow day, three hours ahead of the clock. */
  function Midnight(day: int): int {
    24 * 3600 * day - 3 * 3600
  }

  lemma ChargedIsCounted(s: State, day: int)
    ensures ChargedOn(s, day) == CountedBetween(s, Midnight(day), Midnight(day + 1))
  {
    forall t: int ensures MoscowDay(t) == day <==> Midnight(day) <= t < Midnight(day + 1) {
    }
  }

  /**
    In every run whose admitted claims fit, the changes between two Moscow midnights that are pending, unknown or
    applied, and the calls sent for them, number at most the cap configured at the latest of their claims.
  */
  lemma MidnightsWithinCap(r: Run, i: nat, day: int) returns (id: nat)
    requires IsRun(r) && FittingRun(r) && i < |r.states|
    requires CountedBetween(r.states[i], Midnight(day), Midnight(day + 1)) != {}
    ensures var s := r.states[i]; var counted := CountedBetween(s, Midnight(day), Midnight(day + 1));
            && id in counted && |counted| <= s.actions[id].cap
            && |set k: nat | k < |s.writes| && s.writes[k].id in counted| <= s.actions[id].cap
  {
    ChargedIsCounted(r.states[i], day);
    id := DayWithinCap(r, i, day);
    var s := r.states[i];
    assert (set k: nat | k < |s.writes| && s.writes[k].id in CountedBetween(s, Midnight(day), Midnight(day + 1)))
        == CallsChargedOn(s, day);
  }

  /**
    A claim that is not refused is pending exactly if automation is on and not on hold and the changes counted for
    the day of its window are fewer than the smaller of the cap read before and the cap configured now.
  */
  lemma ClaimIsAdmittedIff(s: State, w: nat)
    requires Enabled(s, Claim(w)) && |Do(s, Claim(w)).actions| > |s.actions|
    ensures var day, row := MoscowDay(PhaseOf(s, w).windowAt), Do(s, Claim(w)).actions[|s.actions|];
            var cap := if PhaseOf(s, w).cap < s.settings.cap then PhaseOf(s, w).cap else s.settings.cap;
            && Midnight(day) <= PhaseOf(s, w).windowAt < Midnight(day + 1)
            && (row.status.Pending? || row.status.Blocked?)
            && (row.status.Pending? <==>
                  && s.settings.enabled && !s.settings.hold && cap > 0
                  && |CountedBetween(s, Midnight(day), Midnight(day + 1))| < cap)
  {
    ChargedIsCounted(s, MoscowDay(PhaseOf(s, w).windowAt));
    hide HasUnresolved, KeyTaken, ChargedOn, CountedBetween;
  }

  /**
    The lease before a call is granted exactly if nobody holds it, the action is still pending, automation is on
    and not on hold, and the changes counted for the day of its window, its own among them, are at most the
    smaller of the reloaded cap and the cap configured now.
  */
  lemma LeaseIsGrantedIff(s: State, w: nat)
    requires PhaseOf(s, w).CapReloaded? && PhaseOf(s, w).id < |s.actions|
    ensures var p, day := PhaseOf(s, w), MoscowDay(PhaseOf(s, w).windowAt);
            var cap := if p.cap < s.settings.cap then p.cap else s.settings.cap;
            Enabled(s, TakeLease(w)) <==>
              && s.lease.None? && s.actions[p.id].status.Pending? && s.settings.enabled && !s.settings.hold && cap > 0
              && |CountedBetween(s, Midnight(day), Midnight(day + 1))| <= cap
  {
    ChargedIsCounted(s, MoscowDay(PhaseOf(s, w).windowAt));
    hide ChargedOn, CountedBetween;
  }
}
