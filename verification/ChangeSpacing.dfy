/**
  The per-target limits of a strategy under one worker: applied changes lie further apart than the
  cooldown and no 24 hours carry more than the daily number, although unknown outcomes are not
  counted when they happen and may turn into applied ones much later.

  The action guard reads the change log first and the unresolved check comes after it. A reconciliation
  in between can log a change of the target as applied that the guard did not see. The limits are kept
  in a run exactly if what the guard read still holds, for the time it read it, when the claim is made.
*/
module ChangeSpacing {
  import opened Numeric
  import opened WriteProtocol
  import opened WriteSafety
  import opened DailyCap
  import opened LogAgreement

  /** A change of `a` counts against `b` whatever products the guard of `b` looks at. */
  predicate CountsFor(a: Target, b: Target) {
    && a.campaign == b.campaign && a.placement == b.placement
    && (a.product.None? || a.product == b.product)
  }

  ghost predicate LoggedApplied(s: State, i: nat) {
    i < |s.actions| && i in s.audits && s.audits[i].status.Applied?
  }

  // ------------------------------------------------------- what one step can do

  /** The guard, the unresolved check and the reading of the cap come in this order. */
  ghost predicate PlanningEvolves(s: State, step: Step, t: State, w: nat) {
    var p, q := PhaseOf(s, w), PhaseOf(t, w);
    && (q != p && q.Guarded? ==>
          && step.Guard? && q.guardAt == s.now && t.actions == s.actions && t.audits == s.audits && t.now == s.now
          && ProductsFor(q.plan.target, step.products) && GuardPasses(s, q.plan, step.products))
    && (q != p && q.Clear? ==>
          && p == Guarded(q.plan, q.guardAt) && !HasUnresolved(s, q.plan.target)
          && t.actions == s.actions && t.audits == s.audits)
    && (q != p && q.Ready? ==> p == Clear(q.plan, q.guardAt) && t.actions == s.actions && t.audits == s.audits)
  }

  /** A log entry keeps its time; its status is only changed by the reconciler. */
  ghost predicate AuditsEvolve(s: State, step: Step, t: State) {
    && (forall i | i in t.audits && i !in s.audits ::
          t.audits[i].createdAt == s.now && (step.AuditReconciled? || exists w: nat :: Carried(PhaseOf(s, w)) == Some(i)))
    && (forall i | i in t.audits && i in s.audits ::
          && t.audits[i].createdAt == s.audits[i].createdAt
          && (t.audits[i] != s.audits[i] ==> step.AuditReconciled?))
    && (step.AuditReconciled? ==> forall i | i in t.audits && (i !in s.audits || t.audits[i] != s.audits[i]) ::
          i < |s.actions| && Unresolved(s.actions[i].status))
  }

  lemma StepMovesPlanning(s: State, step: Step, w: nat)
    requires Enabled(s, step)
    ensures PlanningEvolves(s, step, Do(s, step), w)
  {
    hide GuardPasses, HasUnresolved, KeyTaken, ChargedOn;
  }

  lemma WorkerLogs(s: State, w: nat)
    requires Enabled(s, RecordAudit(w))
    ensures AuditsEvolve(s, RecordAudit(w), Do(s, RecordAudit(w)))
  {
    assert Carried(PhaseOf(s, w)) == Some(PhaseOf(s, w).id);
  }

  lemma ReconcilerLogs(s: State, c: nat)
    requires Enabled(s, AuditReconciled(c))
    ensures AuditsEvolve(s, AuditReconciled(c), Do(s, AuditReconciled(c)))
  {
  }

  lemma StepMovesAudits(s: State, step: Step)
    requires Enabled(s, step)
    ensures AuditsEvolve(s, step, Do(s, step))
  {
    hide Enabled, Do;
    if step.RecordAudit? {
      WorkerLogs(s, step.w);
    } else if step.AuditReconciled? {
      ReconcilerLogs(s, step.c);
    } else {
      OnlyTwoStepsLog(s, step);
    }
  }

  // --------------------------------------------------------------------- the limits

  /** The applied changes among the first `n` actions that count for a target and are logged since a time. */
  ghost function Counted(s: State, n: nat, t: Target, since: int): set<nat> {
    set i: nat | i < n && LoggedApplied(s, i) && CountsFor(s.actions[i].plan.target, t) && s.audits[i].createdAt >= since
  }

  /** The limits of a plan guarded at `at`, against the first `n` actions. */
  ghost predicate Spaced(s: State, n: nat, p: Plan, at: int) {
    && (p.cooldownMinutes > 0 ==> Counted(s, n, p.target, at - 60 * p.cooldownMinutes) == {})
    && (p.maxChangesPerDay > 0 ==> |Counted(s, n, p.target, at - SECONDS_PER_DAY)| < p.maxChangesPerDay)
  }

  /** Every action keeps the limits of its plan against the actions before it. */
  ghost predicate ActionsAreSpaced(s: State) {
    forall j: nat | j < |s.actions| :: Spaced(s, j, s.actions[j].plan, s.actions[j].guardAt)
  }

  /** A step that records a claim finds the limits that its guard read still kept. */
  ghost predicate GuardHolds(s: State, t: State) {
    |t.actions| > |s.actions| ==>
      Spaced(s, |s.actions|, t.actions[|s.actions|].plan, t.actions[|s.actions|].guardAt)
  }

  ghost predicate GuardedRun(r: Run) {
    |r.states| == |r.steps| + 1 && forall k | 0 <= k < |r.steps| :: GuardHolds(r.states[k], r.states[k + 1])
  }

  // --------------------------------------------------- what one worker always keeps

  ghost predicate TimesOrdered(s: State, w: nat) {
    && (forall i | 0 <= i < |s.actions| :: s.actions[i].guardAt <= s.actions[i].createdAt <= s.now)
    && (forall i | i in s.audits :: i < |s.actions| && s.actions[i].createdAt <= s.audits[i].createdAt <= s.now)
    && ((PhaseOf(s, w).Guarded? || PhaseOf(s, w).Clear? || PhaseOf(s, w).Ready?) ==> PhaseOf(s, w).guardAt <= s.now)
  }

  /** Only the youngest action can still be carried by the worker. */
  ghost predicate CarriesYoungest(s: State, w: nat) {
    && (forall v: nat | v != w :: Carried(PhaseOf(s, v)).None?)
    && (Carried(PhaseOf(s, w)).Some? ==> Carried(PhaseOf(s, w)).value + 1 == |s.actions|)
  }

  /** Whatever counts for an action was resolved before it was claimed. */
  ghost predicate EarlierResolved(s: State) {
    forall i: nat, j: nat | i < j < |s.actions| && CountsFor(s.actions[i].plan.target, s.actions[j].plan.target) ::
      !Unresolved(s.actions[i].status)
  }

  ghost predicate OneWorkerInv(s: State, w: nat) {
    TimesOrdered(s, w) && CarriesYoungest(s, w) && EarlierResolved(s)
  }

  lemma TimesStayOrdered(s: State, step: Step, t: State, w: nat)
    requires TimesOrdered(s, w) && CarriersDistinct(s)
    requires RowsEvolve(s, t) && ClaimRecorded(s, step, t) && ClockEvolves(s, step, t)
    requires AuditsEvolve(s, step, t) && PlanningEvolves(s, step, t, w)
    requires Actor(step).Some? ==> Actor(step) == Some(w)
    ensures TimesOrdered(t, w)
  {
    forall i | 0 <= i < |s.actions|
      ensures t.actions[i].createdAt == s.actions[i].createdAt && t.actions[i].guardAt == s.actions[i].guardAt
    {
      assert SameClaim(s.actions[i], t.actions[i]);
    }
  }

  lemma StillCarriesYoungest(s: State, step: Step, t: State, w: nat)
    requires CarriesYoungest(s, w) && RowsEvolve(s, t) && WorkersEvolve(s, step, t) && ClaimRecorded(s, step, t)
    requires Actor(step).Some? ==> Actor(step) == Some(w)
    ensures CarriesYoungest(t, w)
  {
  }

  lemma EarlierStayResolved(s: State, t: State)
    requires EarlierResolved(s) && RowsEvolve(s, t)
    ensures EarlierResolved(t)
  {
    forall i | 0 <= i < |s.actions| ensures t.actions[i].plan == s.actions[i].plan {
      assert SameClaim(s.actions[i], t.actions[i]);
    }
    forall i: nat, j: nat | i < j < |t.actions| && CountsFor(t.actions[i].plan.target, t.actions[j].plan.target)
      ensures !Unresolved(t.actions[i].status)
    {
      assert j == |s.actions| ==> Overlaps(s.actions[i].plan.target, t.actions[j].plan.target);
    }
  }

  lemma {:induction false} OneWorkerAlways(r: Run, w: nat, i: nat)
    requires IsRun(r) && OneWorker(r, w) && i < |r.states|
    ensures OneWorkerInv(r.states[i], w)
  {
    hide Enabled, Do;
    if i > 0 {
      var s, step, t := r.states[i - 1], r.steps[i - 1], r.states[i];
      OneWorkerAlways(r, w, i - 1);
      InvAlways(r, i - 1);
      StepMovesRows(s, step);
      StepMovesWorkers(s, step);
      StepRecordsClaim(s, step);
      StepMovesClock(s, step);
      StepMovesPlanning(s, step, w);
      StepMovesAudits(s, step);
      TimesStayOrdered(s, step, t, w);
      StillCarriesYoungest(s, step, t, w);
      EarlierStayResolved(s, t);
    }
  }

  // ---------------------------------------------------------------- exact condition

  /** Outside both windows of a plan guarded at `at`. */
  ghost predicate Outside(a: Audit, p: Plan, at: int) {
    && (p.cooldownMinutes > 0 ==> a.createdAt < at - 60 * p.cooldownMinutes)
    && (p.maxChangesPerDay > 0 ==> a.createdAt < at - SECONDS_PER_DAY)
  }

  /** If nothing inside its windows newly counts as applied, a spaced plan stays spaced. */
  lemma SpacedStays(s: State, t: State, n: nat, p: Plan, at: int)
    requires Spaced(s, n, p, at) && n <= |s.actions| && RowsEvolve(s, t)
    requires forall i: nat | i < n && LoggedApplied(t, i) && CountsFor(t.actions[i].plan.target, p.target) ::
               (LoggedApplied(s, i) && t.audits[i].createdAt == s.audits[i].createdAt) || Outside(t.audits[i], p, at)
    ensures Spaced(t, n, p, at)
  {
    forall i | 0 <= i < n ensures t.actions[i].plan == s.actions[i].plan {
      assert SameClaim(s.actions[i], t.actions[i]);
    }
    if p.cooldownMinutes > 0 {
      assert Counted(t, n, p.target, at - 60 * p.cooldownMinutes) <= Counted(s, n, p.target, at - 60 * p.cooldownMinutes);
    }
    if p.maxChangesPerDay > 0 {
      Subset(Counted(t, n, p.target, at - SECONDS_PER_DAY), Counted(s, n, p.target, at - SECONDS_PER_DAY));
    }
  }

  /** A resolved action that nobody carries keeps its log entry. */
  lemma SettledLog(s: State, step: Step, t: State, w: nat, i: nat)
    requires AuditsEvolve(s, step, t) && CarriesYoungest(s, w)
    requires i < |s.actions| && !Unresolved(s.actions[i].status) && Carried(PhaseOf(s, w)) != Some(i)
    requires LoggedApplied(t, i)
    ensures LoggedApplied(s, i) && t.audits[i].createdAt == s.audits[i].createdAt
  {
    assert forall v: nat :: Carried(PhaseOf(s, v)) != Some(i);
  }

  /** An earlier action's limits stay kept, because the log entries they count are settled. */
  lemma EarlierActionStaysSpaced(s: State, step: Step, t: State, w: nat, j: nat)
    requires ActionsAreSpaced(s) && EarlierResolved(s) && CarriesYoungest(s, w) && j < |s.actions|
    requires RowsEvolve(s, t) && AuditsEvolve(s, step, t)
    ensures Spaced(t, j, t.actions[j].plan, t.actions[j].guardAt)
  {
    assert SameClaim(s.actions[j], t.actions[j]);
    forall i: nat | i < j && LoggedApplied(t, i) && CountsFor(t.actions[i].plan.target, t.actions[j].plan.target)
      ensures LoggedApplied(s, i) && t.audits[i].createdAt == s.audits[i].createdAt
    {
      assert SameClaim(s.actions[i], t.actions[i]);
      SettledLog(s, step, t, w, i);
    }
    SpacedStays(s, t, j, s.actions[j].plan, s.actions[j].guardAt);
  }

  /** Recording a claim changes nothing that the limits of its plan count. */
  lemma ClaimSpacedIff(s: State, step: Step, t: State)
    requires ClaimRecorded(s, step, t) && |t.actions| > |s.actions|
    ensures var p, at := t.actions[|s.actions|].plan, t.actions[|s.actions|].guardAt;
            Spaced(t, |s.actions|, p, at) <==> Spaced(s, |s.actions|, p, at)
  {
    var p, at := t.actions[|s.actions|].plan, t.actions[|s.actions|].guardAt;
    assert Counted(t, |s.actions|, p.target, at - 60 * p.cooldownMinutes)
        == Counted(s, |s.actions|, p.target, at - 60 * p.cooldownMinutes);
    assert Counted(t, |s.actions|, p.target, at - SECONDS_PER_DAY)
        == Counted(s, |s.actions|, p.target, at - SECONDS_PER_DAY);
  }

  lemma ActionsStaySpaced(s: State, step: Step, t: State, w: nat)
    requires ActionsAreSpaced(s) && EarlierResolved(s) && CarriesYoungest(s, w) && GuardHolds(s, t)
    requires RowsEvolve(s, t) && ClaimRecorded(s, step, t) && AuditsEvolve(s, step, t)
    ensures ActionsAreSpaced(t)
  {
    forall j: nat | j < |t.actions| ensures Spaced(t, j, t.actions[j].plan, t.actions[j].guardAt) {
      if j < |s.actions| {
        EarlierActionStaysSpaced(s, step, t, w, j);
      } else {
        ClaimSpacedIff(s, step, t);
      }
    }
  }

  lemma {:induction false} SpacedAlways(r: Run, w: nat, i: nat)
    requires IsRun(r) && OneWorker(r, w) && GuardedRun(r) && i < |r.states|
    ensures ActionsAreSpaced(r.states[i])
  {
    hide Enabled, Do;
    if i > 0 {
      var s, step, t := r.states[i - 1], r.steps[i - 1], r.states[i];
      SpacedAlways(r, w, i - 1);
      OneWorkerAlways(r, w, i - 1);
      StepMovesRows(s, step);
      StepRecordsClaim(s, step);
      StepMovesAudits(s, step);
      ActionsStaySpaced(s, step, t, w);
    }
  }

  /**
    The exact condition for one worker: every action of a run keeps the limits of its plan, at every
    later moment, if and only if at every claim the limits its guard read are still kept.
  */
  lemma LimitsAreKeptIff(r: Run, w: nat)
    requires IsRun(r) && OneWorker(r, w)
    ensures (forall i | 0 <= i < |r.states| :: ActionsAreSpaced(r.states[i])) <==> GuardedRun(r)
  {
    hide Enabled, Do, Spaced;
    if GuardedRun(r) {
      forall i | 0 <= i < |r.states| ensures ActionsAreSpaced(r.states[i]) {
        SpacedAlways(r, w, i);
      }
    }
    if forall i | 0 <= i < |r.states| :: ActionsAreSpaced(r.states[i]) {
      forall k | 0 <= k < |r.steps| ensures GuardHolds(r.states[k], r.states[k + 1]) {
        var s, t := r.states[k], r.states[k + 1];
        StepRecordsClaim(s, r.steps[k]);
        if |t.actions| > |s.actions| {
          ClaimSpacedIff(s, r.steps[k], t);
        }
      }
    }
  }

  // ----------------------------------------------------------------------- the fence

  /**
    Between the guard and the unresolved check of a plan the reconciler logs no change of its target as
    applied whose log time lies in one of the plan's windows.
  */
  ghost predicate Fenced(s: State, step: Step, t: State, w: nat) {
    step.AuditReconciled? && PhaseOf(s, w).Guarded? ==>
      forall i: nat | LoggedApplied(t, i) && CountsFor(t.actions[i].plan.target, PhaseOf(s, w).plan.target) ::
        LoggedApplied(s, i) || Outside(t.audits[i], PhaseOf(s, w).plan, PhaseOf(s, w).guardAt)
  }

  ghost predicate FencedRun(r: Run, w: nat) {
    |r.states| == |r.steps| + 1 && forall k | 0 <= k < |r.steps| :: Fenced(r.states[k], r.steps[k], r.states[k + 1], w)
  }

  /** A plan that waits keeps its limits, and past the unresolved check nothing that counts for it is open. */
  ghost predicate PlanIsSpaced(s: State, w: nat) {
    var p := PhaseOf(s, w);
    && (p.Guarded? || p.Clear? || p.Ready? ==> Spaced(s, |s.actions|, p.plan, p.guardAt))
    && (p.Clear? || p.Ready? ==> !HasUnresolved(s, p.plan.target))
  }

  /** What the guard saw is what the plan is spaced from. */
  lemma GuardSpaces(s: State, p: Plan, products: set<nat>)
    requires ProductsFor(p.target, products) && GuardPasses(s, p, products)
    ensures Spaced(s, |s.actions|, p, s.now)
  {
    assert Counted(s, |s.actions|, p.target, s.now - 60 * p.cooldownMinutes)
        <= RecentChanges(s, p.target, products, s.now - 60 * p.cooldownMinutes);
    Subset(Counted(s, |s.actions|, p.target, s.now - SECONDS_PER_DAY),
           RecentChanges(s, p.target, products, s.now - SECONDS_PER_DAY));
  }

  /** While a plan waits, nothing inside its windows becomes an applied change: first the fence, then the unresolved check. */
  lemma WaitingPlanSeesNoNewChange(s: State, step: Step, t: State, w: nat, i: nat)
    requires PlanIsSpaced(s, w) && CarriesYoungest(s, w)
    requires PhaseOf(s, w).Guarded? || PhaseOf(s, w).Clear? || PhaseOf(s, w).Ready?
    requires RowsEvolve(s, t) && AuditsEvolve(s, step, t) && Fenced(s, step, t, w)
    requires i < |s.actions| && LoggedApplied(t, i)
    requires CountsFor(t.actions[i].plan.target, PhaseOf(s, w).plan.target)
    ensures || (LoggedApplied(s, i) && t.audits[i].createdAt == s.audits[i].createdAt)
            || Outside(t.audits[i], PhaseOf(s, w).plan, PhaseOf(s, w).guardAt)
  {
    assert SameClaim(s.actions[i], t.actions[i]);
    assert Overlaps(s.actions[i].plan.target, PhaseOf(s, w).plan.target);
    assert forall v: nat :: Carried(PhaseOf(s, v)).None?;
  }

  lemma PlanStaysSpaced(s: State, step: Step, t: State, w: nat)
    requires PlanIsSpaced(s, w) && CarriesYoungest(s, w)
    requires RowsEvolve(s, t) && ClaimRecorded(s, step, t) && AuditsEvolve(s, step, t)
    requires PlanningEvolves(s, step, t, w) && Fenced(s, step, t, w)
    requires Actor(step).Some? ==> Actor(step) == Some(w)
    ensures PlanIsSpaced(t, w)
  {
    var p, q := PhaseOf(s, w), PhaseOf(t, w);
    if q.Guarded? || q.Clear? || q.Ready? {
      if q != p && q.Guarded? {
        GuardSpaces(s, q.plan, step.products);
        SpacedStays(s, t, |s.actions|, q.plan, q.guardAt);
      } else {
        assert |t.actions| == |s.actions|;
        forall i: nat | i < |s.actions| && LoggedApplied(t, i) && CountsFor(t.actions[i].plan.target, q.plan.target)
          ensures || (LoggedApplied(s, i) && t.audits[i].createdAt == s.audits[i].createdAt)
                  || Outside(t.audits[i], q.plan, q.guardAt)
        {
          WaitingPlanSeesNoNewChange(s, step, t, w, i);
        }
        SpacedStays(s, t, |s.actions|, q.plan, q.guardAt);
      }
      if !q.Guarded? {
        StaysResolved(s, t, q.plan.target);
      }
    }
  }

  lemma StaysResolved(s: State, t: State, target: Target)
    requires RowsEvolve(s, t) && |t.actions| == |s.actions| && !HasUnresolved(s, target)
    ensures !HasUnresolved(t, target)
  {
    forall i | 0 <= i < |t.actions| && Overlaps(t.actions[i].plan.target, target)
      ensures !Unresolved(t.actions[i].status)
    {
      assert SameClaim(s.actions[i], t.actions[i]);
    }
  }

  lemma {:induction false} PlanAlwaysSpaced(r: Run, w: nat, i: nat)
    requires IsRun(r) && OneWorker(r, w) && FencedRun(r, w) && i < |r.states|
    ensures PlanIsSpaced(r.states[i], w)
  {
    hide Enabled, Do;
    if i > 0 {
      var s, step, t := r.states[i - 1], r.steps[i - 1], r.states[i];
      PlanAlwaysSpaced(r, w, i - 1);
      OneWorkerAlways(r, w, i - 1);
      StepMovesRows(s, step);
      StepRecordsClaim(s, step);
      StepMovesPlanning(s, step, w);
      StepMovesAudits(s, step);
      PlanStaysSpaced(s, step, t, w);
    }
  }

  /** The fence is sufficient. */
  lemma FencedRunsAreGuarded(r: Run, w: nat)
    requires IsRun(r) && OneWorker(r, w) && FencedRun(r, w)
    ensures GuardedRun(r)
  {
    hide Enabled, Do, Spaced;
    forall k | 0 <= k < |r.steps| ensures GuardHolds(r.states[k], r.states[k + 1]) {
      PlanAlwaysSpaced(r, w, k);
      StepRecordsClaim(r.states[k], r.steps[k]);
      assert r.steps[k].Claim? ==> Actor(r.steps[k]) == Some(r.steps[k].w);
    }
  }

  /** Reconcilers only work while the worker does not. */
  ghost predicate ReconcilesWhenIdle(r: Run, w: nat) {
    |r.states| == |r.steps| + 1 && forall k | 0 <= k < |r.steps| ::
      r.steps[k].AuditReconciled? ==> PhaseOf(r.states[k], w).Idle?
  }

  lemma IdleReconciliationIsFenced(r: Run, w: nat)
    requires IsRun(r) && OneWorker(r, w) && ReconcilesWhenIdle(r, w)
    ensures FencedRun(r, w) && GuardedRun(r)
  {
    hide Enabled, Do;
    FencedRunsAreGuarded(r, w);
  }

  /** So with a single process, which runs one task at a time, the limits are kept in every run. */
  lemma SerialRunsAreGuarded(r: Run, w: nat)
    requires IsRun(r) && OneWorker(r, w) && Serial(r)
    ensures ReconcilesWhenIdle(r, w) && GuardedRun(r)
  {
    hide Enabled, Do;
    forall k | 0 <= k < |r.steps| && r.steps[k].AuditReconciled? ensures PhaseOf(r.states[k], w).Idle? {
      assert Exclusive(r.states[k], r.steps[k]);
    }
    IdleReconciliationIsFenced(r, w);
  }

  // -------------------------------------------------------------------- theorems

  /**
    Two changes of a target that are logged as applied, at once or after a reconciliation, lie more
    than the later one's cooldown apart.
  */
  lemma AppliedChangesKeepCooldown(r: Run, w: nat, k: nat, i: nat, j: nat)
    requires IsRun(r) && OneWorker(r, w) && GuardedRun(r) && k < |r.states|
    requires i < j && LoggedApplied(r.states[k], i) && LoggedApplied(r.states[k], j)
    requires CountsFor(r.states[k].actions[i].plan.target, r.states[k].actions[j].plan.target)
    requires r.states[k].actions[j].plan.cooldownMinutes > 0
    ensures r.states[k].audits[j].createdAt
            > r.states[k].audits[i].createdAt + 60 * r.states[k].actions[j].plan.cooldownMinutes
  {
    hide Enabled, Do;
    SpacedAlways(r, w, k);
    OneWorkerAlways(r, w, k);
    var s := r.states[k];
    var p, at := s.actions[j].plan, s.actions[j].guardAt;
    assert Spaced(s, j, p, at);
    assert i !in Counted(s, j, p.target, at - 60 * p.cooldownMinutes);
  }

  /** The applied changes of one target that are logged in the 24 hours from `start`. */
  ghost function AppliedWithinDay(s: State, t: Target, start: int): set<nat> {
    set i: nat | i < |s.actions| && LoggedApplied(s, i) && s.actions[i].plan.target == t
                 && start <= s.audits[i].createdAt < start + SECONDS_PER_DAY
  }

  /** Everything else the day holds was already counted by the guard of its latest change. */
  lemma LatestCountsTheDay(s: State, w: nat, t: Target, start: int, j: nat)
    requires TimesOrdered(s, w) && ActionsAreSpaced(s) && j in AppliedWithinDay(s, t, start)
    requires forall i | i in AppliedWithinDay(s, t, start) :: i <= j
    ensures AppliedWithinDay(s, t, start)
         <= Counted(s, j, s.actions[j].plan.target, s.actions[j].guardAt - SECONDS_PER_DAY) + {j}
    ensures s.actions[j].plan.maxChangesPerDay > 0 ==>
              |Counted(s, j, s.actions[j].plan.target, s.actions[j].guardAt - SECONDS_PER_DAY)|
              < s.actions[j].plan.maxChangesPerDay
  {
    assert Spaced(s, j, s.actions[j].plan, s.actions[j].guardAt);
  }

  lemma OneMore(a: set<nat>, b: set<nat>, x: nat)
    requires a <= b + {x}
    ensures |a| <= |b| + 1
  {
    Subset(a, b + {x});
  }

  lemma DayIsLimited(s: State, w: nat, t: Target, start: int) returns (j: nat)
    requires TimesOrdered(s, w) && ActionsAreSpaced(s) && AppliedWithinDay(s, t, start) != {}
    ensures j in AppliedWithinDay(s, t, start)
    ensures s.actions[j].plan.maxChangesPerDay > 0 ==>
              |AppliedWithinDay(s, t, start)| <= s.actions[j].plan.maxChangesPerDay
  {
    j := Latest(AppliedWithinDay(s, t, start));
    LatestCountsTheDay(s, w, t, start, j);
    hide TimesOrdered, ActionsAreSpaced, Counted;
    var p := s.actions[j].plan;
    OneMore(AppliedWithinDay(s, t, start), Counted(s, j, p.target, s.actions[j].guardAt - SECONDS_PER_DAY), j);
  }

  /** In any 24 hours a target has at most as many applied changes as the latest of them allows. */
  lemma AppliedChangesKeepDailyLimit(r: Run, w: nat, k: nat, t: Target, start: int) returns (j: nat)
    requires IsRun(r) && OneWorker(r, w) && GuardedRun(r) && k < |r.states|
    requires AppliedWithinDay(r.states[k], t, start) != {}
    ensures j in AppliedWithinDay(r.states[k], t, start)
    ensures r.states[k].actions[j].plan.maxChangesPerDay > 0 ==>
              |AppliedWithinDay(r.states[k], t, start)| <= r.states[k].actions[j].plan.maxChangesPerDay
  {
    hide Enabled, Do;
    SpacedAlways(r, w, k);
    OneWorkerAlways(r, w, k);
    j := DayIsLimited(r.states[k], w, t, start);
  }

  // --------------------------------------------- the actions and the calls themselves

  /** In a clean run an applied action is logged as applied. */
  lemma CleanAppliedIsLogged(r: Run, k: nat, x: nat)
    requires IsRun(r) && k < |r.states| && x < |r.states[k].actions|
    requires r.states[k].actions[x].status.Applied? && CleanSoFar(r, k, x)
    ensures LoggedApplied(r.states[k], x)
  {
    hide Enabled, Do, CleanSoFar;
    FinishedAgreesIff(r, k, x);
  }

  /** So the cooldown also separates what the action table shows as applied. */
  lemma AppliedActionsKeepCooldown(r: Run, w: nat, k: nat, i: nat, j: nat)
    requires IsRun(r) && OneWorker(r, w) && GuardedRun(r) && k < |r.states| && i < j < |r.states[k].actions|
    requires r.states[k].actions[i].status.Applied? && r.states[k].actions[j].status.Applied?
    requires CleanSoFar(r, k, i) && CleanSoFar(r, k, j)
    requires CountsFor(r.states[k].actions[i].plan.target, r.states[k].actions[j].plan.target)
    requires r.states[k].actions[j].plan.cooldownMinutes > 0
    ensures LoggedApplied(r.states[k], i) && LoggedApplied(r.states[k], j)
    ensures r.states[k].audits[j].createdAt
            > r.states[k].audits[i].createdAt + 60 * r.states[k].actions[j].plan.cooldownMinutes
  {
    hide Enabled, Do, CleanSoFar, GuardedRun;
    CleanAppliedIsLogged(r, k, i);
    CleanAppliedIsLogged(r, k, j);
    AppliedChangesKeepCooldown(r, w, k, i, j);
  }

  /** A call comes after its claim. */
  ghost predicate CallsTimed(s: State) {
    forall a | 0 <= a < |s.writes| ::
      s.writes[a].id < |s.actions| && s.actions[s.writes[a].id].createdAt <= s.writes[a].at <= s.now
  }

  lemma CallsStayTimed(s: State, step: Step, t: State, w: nat)
    requires CallsTimed(s) && TimesOrdered(s, w) && LeaseProtects(s)
    requires RowsEvolve(s, t) && CallsEvolve(s, step, t) && ClockEvolves(s, step, t)
    ensures CallsTimed(t)
  {
    forall i | 0 <= i < |s.actions| ensures t.actions[i].createdAt == s.actions[i].createdAt {
      assert SameClaim(s.actions[i], t.actions[i]);
    }
  }

  lemma {:induction false} CallsAlwaysTimed(r: Run, w: nat, k: nat)
    requires IsRun(r) && OneWorker(r, w) && k < |r.states|
    ensures CallsTimed(r.states[k])
  {
    hide Enabled, Do;
    if k > 0 {
      var s, step := r.states[k - 1], r.steps[k - 1];
      CallsAlwaysTimed(r, w, k - 1);
      OneWorkerAlways(r, w, k - 1);
      InvAlways(r, k - 1);
      StepMovesRows(s, step);
      StepMovesCalls(s, step);
      StepMovesClock(s, step);
      CallsStayTimed(s, step, r.states[k], w);
    }
  }

  /** A call is no later than the log entry of its action. */
  ghost predicate CalledBeforeLogged(s: State) {
    forall a | 0 <= a < |s.writes| && s.writes[a].id in s.audits :: s.writes[a].at <= s.audits[s.writes[a].id].createdAt
  }

  lemma StaysCalledBeforeLogged(s: State, step: Step, t: State)
    requires CalledBeforeLogged(s) && CallsTimed(s) && OwnEntries(s)
    requires CallsEvolve(s, step, t) && AuditsEvolve(s, step, t) && EntriesBy(s, step, t)
    ensures CalledBeforeLogged(t)
  {
    if step.Call? {
      assert OwnLog(s, step.w);
    }
  }

  lemma {:induction false} AlwaysCalledBeforeLogged(r: Run, w: nat, k: nat)
    requires IsRun(r) && OneWorker(r, w) && Serial(r) && k < |r.states|
    ensures CalledBeforeLogged(r.states[k])
  {
    hide Enabled, Do;
    if k > 0 {
      var s, step := r.states[k - 1], r.steps[k - 1];
      AlwaysCalledBeforeLogged(r, w, k - 1);
      CallsAlwaysTimed(r, w, k - 1);
      AlwaysOwnEntries(r, k - 1);
      StepMovesCalls(s, step);
      StepMovesAudits(s, step);
      StepWritesEntries(s, step);
      StaysCalledBeforeLogged(s, step, r.states[k]);
    }
  }

  /**
    A call comes more than its cooldown after the log entry of an earlier applied change, and with one task at a
    time more than its cooldown after the earlier call.
  */
  lemma CallsKeepCooldown(r: Run, w: nat, k: nat, a: nat, b: nat)
    requires IsRun(r) && OneWorker(r, w) && GuardedRun(r) && k < |r.states|
    requires a < |r.states[k].writes| && b < |r.states[k].writes|
    requires var s := r.states[k]; var i, j := s.writes[a].id, s.writes[b].id;
             && i < j < |s.actions| && LoggedApplied(s, i) && s.actions[j].plan.cooldownMinutes > 0
             && CountsFor(s.actions[i].plan.target, s.actions[j].plan.target)
    ensures var s := r.states[k]; var i, j := s.writes[a].id, s.writes[b].id;
            && s.writes[b].at > s.audits[i].createdAt + 60 * s.actions[j].plan.cooldownMinutes
            && (Serial(r) ==> s.writes[b].at > s.writes[a].at + 60 * s.actions[j].plan.cooldownMinutes)
  {
    hide Enabled, Do;
    var s := r.states[k];
    var i, j := s.writes[a].id, s.writes[b].id;
    SpacedAlways(r, w, k);
    OneWorkerAlways(r, w, k);
    CallsAlwaysTimed(r, w, k);
    assert Spaced(s, j, s.actions[j].plan, s.actions[j].guardAt);
    assert i !in Counted(s, j, s.actions[j].plan.target, s.actions[j].guardAt - 60 * s.actions[j].plan.cooldownMinutes);
    if Serial(r) {
      AlwaysCalledBeforeLogged(r, w, k);
    }
  }

  /** The actions of one target, logged as applied, whose call lies in the 24 hours from `start`. */
  ghost function CalledWithinDay(s: State, t: Target, start: int): set<nat> {
    set i: nat | i < |s.actions| && LoggedApplied(s, i) && s.actions[i].plan.target == t && CalledIn(s, i, start)
  }

  ghost predicate CalledIn(s: State, i: nat, start: int) {
    exists a :: 0 <= a < |s.writes| && s.writes[a].id == i && start <= s.writes[a].at < start + SECONDS_PER_DAY
  }

  lemma LatestCountsTheCalls(s: State, w: nat, t: Target, start: int, j: nat)
    requires TimesOrdered(s, w) && ActionsAreSpaced(s) && CallsTimed(s) && CalledBeforeLogged(s)
    requires j in CalledWithinDay(s, t, start) && forall i | i in CalledWithinDay(s, t, start) :: i <= j
    ensures CalledWithinDay(s, t, start)
         <= Counted(s, j, s.actions[j].plan.target, s.actions[j].guardAt - SECONDS_PER_DAY) + {j}
    ensures s.actions[j].plan.maxChangesPerDay > 0 ==>
              |Counted(s, j, s.actions[j].plan.target, s.actions[j].guardAt - SECONDS_PER_DAY)|
              < s.actions[j].plan.maxChangesPerDay
  {
    assert Spaced(s, j, s.actions[j].plan, s.actions[j].guardAt);
    var b :| 0 <= b < |s.writes| && s.writes[b].id == j && start <= s.writes[b].at < start + SECONDS_PER_DAY;
  }

  /** With one task at a time no 24 hours hold more applied calls of a target than the latest one's limit. */
  lemma CallsKeepDailyLimit(r: Run, w: nat, k: nat, t: Target, start: int) returns (j: nat)
    requires IsRun(r) && OneWorker(r, w) && Serial(r) && k < |r.states|
    requires CalledWithinDay(r.states[k], t, start) != {}
    ensures j in CalledWithinDay(r.states[k], t, start)
    ensures r.states[k].actions[j].plan.maxChangesPerDay > 0 ==>
              |CalledWithinDay(r.states[k], t, start)| <= r.states[k].actions[j].plan.maxChangesPerDay
  {
    hide Enabled, Do, Serial;
    var s := r.states[k];
    SerialRunsAreGuarded(r, w);
    SpacedAlways(r, w, k);
    OneWorkerAlways(r, w, k);
    CallsAlwaysTimed(r, w, k);
    AlwaysCalledBeforeLogged(r, w, k);
    j := Latest(CalledWithinDay(s, t, start));
    LatestCountsTheCalls(s, w, t, start, j);
    hide TimesOrdered, ActionsAreSpaced, CallsTimed, CalledBeforeLogged, Counted;
    OneMore(CalledWithinDay(s, t, start),
            Counted(s, j, s.actions[j].plan.target, s.actions[j].guardAt - SECONDS_PER_DAY), j);
  }

  // ------------------------------------------------------------------- what the guard reads

  /**
    The rows the guard counts: logged as applied at that time or later, at the same placement, and for the whole
    campaign of the plan, for a product the guard looks at, or for any product if it looks at none.
  */
  ghost function CountedSince(s: State, t: Target, products: set<nat>, since: int): set<nat> {
    set i | i in s.audits && i < |s.actions| && s.audits[i].status.Applied? && since <= s.audits[i].createdAt
            && var changed := s.actions[i].plan.target;
               && changed.placement == t.placement
               && (changed.product.None? ==> changed.campaign == t.campaign)
               && (changed.product.Some? && products != {} ==> changed.product.value in products)
  }

  /** The guard stops a plan exactly for a counted change within the cooldown, or as many of 24 hours as a day may have. */
  lemma GuardPassesIff(s: State, w: nat, products: set<nat>)
    requires PhaseOf(s, w).Decided? && ProductsFor(PhaseOf(s, w).plan.target, products)
    ensures var p := PhaseOf(s, w).plan;
            Enabled(s, Guard(w, products)) <==>
              && (p.cooldownMinutes > 0 ==> CountedSince(s, p.target, products, s.now - 60 * p.cooldownMinutes) == {})
              && (p.maxChangesPerDay > 0 ==>
                    |CountedSince(s, p.target, products, s.now - 24 * 3600)| < p.maxChangesPerDay)
  {
    var p := PhaseOf(s, w).plan;
    RecentIsCounted(s, p.target, products, s.now - 60 * p.cooldownMinutes);
    RecentIsCounted(s, p.target, products, s.now - 24 * 3600);
    hide RecentChanges, CountedSince;
  }

  lemma RecentIsCounted(s: State, t: Target, products: set<nat>, since: int)
    ensures RecentChanges(s, t, products, since) == CountedSince(s, t, products, since)
  {
    assert forall i | i in s.audits && i < |s.actions| ::
             i in RecentChanges(s, t, products, since) <==> i in CountedSince(s, t, products, since);
  }
}
