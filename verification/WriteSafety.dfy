/**
  Safety of the write protocol for any number of workers: one marketplace call per observation,
  no call for a target while another action on it is unresolved, no call outside the operator's
  live controls, and reconciled statuses that are backed by a newer observation.
*/
module WriteSafety {
  import opened Numeric
  import opened Strategy
  import opened BidEngine
  import opened BidEngineSafety
  import opened WriteProtocol

  // ------------------------------------------------------- what one step can do

  /** Everything but the outcome of an action is fixed by its claim. */
  ghost predicate SameClaim(a: Action, b: Action) {
    b == a.(status := b.status, evidence := b.evidence)
  }

  /** The only row a step may add: a claim nobody else's unresolved action or key stands against. */
  ghost predicate FreshClaim(s: State, a: Action) {
    && s.lease.None?
    && !HasUnresolved(s, a.plan.target)
    && !KeyTaken(s, KeyOf(a.plan))
    && a.evidence.None?
    && (a.status.Pending? || a.status.Blocked?)
  }

  ghost predicate RowsEvolve(s: State, t: State) {
    && |s.actions| <= |t.actions| <= |s.actions| + 1
    && (forall i | 0 <= i < |s.actions| ::
          && SameClaim(s.actions[i], t.actions[i])
          && (t.actions[i] == s.actions[i] || Unresolved(s.actions[i].status))
          && (t.actions[i].evidence != s.actions[i].evidence ==>
                && t.actions[i].evidence.Some?
                && (exists c: nat :: ReconcilerOf(s, c) == AuditWritten(i, t.actions[i].evidence.value))
                && t.actions[i].status == ReconciledStatus(s.actions[i].plan, t.actions[i].evidence.value.bid)))
    && (|t.actions| > |s.actions| ==> FreshClaim(s, t.actions[|s.actions|]))
  }

  /** How the acting worker's phase may change. */
  ghost predicate PhaseAdvances(s: State, p: Phase, q: Phase, t: State) {
    || q.Idle?
    || (Planning(q) && (if Planning(p) then q.plan == p.plan else p.Idle?))
    || (q.Claimed? && q.id == |s.actions| && |t.actions| > |s.actions|)
    || (Carried(q).Some? && Carried(q) == Carried(p) && !q.Claimed?
        && (BeforeCall(q) ==> BeforeCall(p) && !p.Leased?))
  }

  ghost predicate WorkersEvolve(s: State, step: Step, t: State) {
    && (forall w: nat | Actor(step) != Some(w) :: PhaseOf(t, w) == PhaseOf(s, w))
    && (Actor(step).Some? ==>
          PhaseAdvances(s, PhaseOf(s, Actor(step).value), PhaseOf(t, Actor(step).value), t))
  }

  /** Plans come from engine decisions, and claims from plans. */
  ghost predicate PlansEvolve(s: State, step: Step, t: State) {
    && (step.Decide? ==> PhaseOf(t, step.w).Decided? && PhaseOf(t, step.w).plan.oldBid != PhaseOf(t, step.w).plan.newBid)
    && (forall w: nat | Planning(PhaseOf(t, w)) && !Planning(PhaseOf(s, w)) :: step.Decide? && step.w == w)
    && (|t.actions| > |s.actions| ==>
          step.Claim? && PhaseOf(s, step.w).Ready? && PhaseOf(s, step.w).plan == t.actions[|s.actions|].plan)
  }

  ghost predicate CallsEvolve(s: State, step: Step, t: State) {
    if step.Call? then
      && PhaseOf(s, step.w).Leased? && PhaseOf(t, step.w).Written? && PhaseOf(t, step.w).id == PhaseOf(s, step.w).id
      && t.writes == s.writes + [Write(PhaseOf(s, step.w).id, step.w, s.now)]
      && t.lease == s.lease && t.settings == s.settings
    else t.writes == s.writes && forall w: nat | PhaseOf(t, w).Written? :: PhaseOf(t, w) == PhaseOf(s, w)
  }

  ghost predicate LeaseEvolves(s: State, step: Step, t: State) {
    && (s.lease.Some? ==> t.settings == s.settings)
    && (forall w: nat | PhaseOf(t, w).Leased? && PhaseOf(s, w) != PhaseOf(t, w) :: step.TakeLease? && step.w == w)
    && (step.TakeLease? ==>
          && PhaseOf(s, step.w).CapReloaded? && PhaseOf(t, step.w) == Leased(PhaseOf(s, step.w).id)
          && PhaseOf(s, step.w).id < |s.actions| && s.actions[PhaseOf(s, step.w).id].status.Pending?
          && t.actions == s.actions && AllowsWrites(t.settings) && s.lease.None? && t.lease == Some(step.w))
    && (t.lease != s.lease && s.lease.Some? ==>
          !PhaseOf(t, s.lease.value).Leased? && !PhaseOf(t, s.lease.value).Written?)
  }

  /** Reconciler `c` has just logged for action `i` what it had observed. */
  ghost predicate LogsWhatItSaw(s: State, c: nat, t: State, i: nat) {
    && i < |s.actions| && Unresolved(s.actions[i].status) && i in t.audits
    && ReconcilerOf(s, c).Observed? && ReconcilerOf(s, c).id == i
    && ReconcilerOf(t, c) == AuditWritten(i, ReconcilerOf(s, c).obs)
    && t.audits[i].status == ReconciledStatus(s.actions[i].plan, ReconcilerOf(s, c).obs.bid)
  }

  ghost predicate ReconcilerAdvances(s: State, p: ReconcilerPhase, q: ReconcilerPhase, t: State) {
    || (q.Observed? && q.id < |s.actions| && Fresh(s.actions[q.id], q.obs)
        && s.actions[q.id].plan.target in s.observed && s.observed[s.actions[q.id].plan.target] == q.obs)
    || (p.Observed? && q == AuditWritten(p.id, p.obs) && p.id in t.audits)
  }

  ghost predicate SyncsEvolve(s: State, t: State) {
    && s.synced <= t.synced
    && (forall x | x in t.observed :: (x in s.observed && t.observed[x] == s.observed[x]) || (x, t.observed[x]) in t.synced)
  }

  ghost predicate EntriesEvolve(s: State, t: State) {
    && (forall i | i in s.audits :: i in t.audits)
    && (forall i | i in t.audits && (i !in s.audits || t.audits[i] != s.audits[i]) ::
          || (exists c: nat :: LogsWhatItSaw(s, c, t, i))
          || (i !in s.audits && exists w: nat :: Carried(PhaseOf(s, w)) == Some(i)))
  }

  ghost predicate ReconcilersEvolve(s: State, t: State) {
    forall c: nat | ReconcilerOf(t, c) != ReconcilerOf(s, c) && !ReconcilerOf(t, c).Waiting? ::
      ReconcilerAdvances(s, ReconcilerOf(s, c), ReconcilerOf(t, c), t)
  }

  ghost predicate LogsEvolve(s: State, t: State) {
    SyncsEvolve(s, t) && EntriesEvolve(s, t) && ReconcilersEvolve(s, t)
  }

  lemma StepMovesRows(s: State, step: Step)
    requires Enabled(s, step)
    ensures RowsEvolve(s, Do(s, step))
  {
    hide GuardPasses, HasUnresolved, KeyTaken, ChargedOn, CalculateBid;
  }

  lemma OthersStandStill(s: State, step: Step)
    requires Enabled(s, step)
    ensures forall w: nat | Actor(step) != Some(w) :: PhaseOf(Do(s, step), w) == PhaseOf(s, w)
  {
    hide GuardPasses, HasUnresolved, KeyTaken, ChargedOn, CalculateBid;
  }

  lemma ActorAdvances(s: State, step: Step)
    requires Enabled(s, step) && Actor(step).Some?
    ensures PhaseAdvances(s, PhaseOf(s, Actor(step).value), PhaseOf(Do(s, step), Actor(step).value), Do(s, step))
  {
    hide GuardPasses, HasUnresolved, KeyTaken, ChargedOn, CalculateBid;
  }

  lemma StepMovesWorkers(s: State, step: Step)
    requires Enabled(s, step)
    ensures WorkersEvolve(s, step, Do(s, step))
  {
    hide Enabled, Do, PhaseAdvances;
    OthersStandStill(s, step);
    if Actor(step).Some? {
      ActorAdvances(s, step);
    }
  }

  lemma StepMovesPlans(s: State, step: Step)
    requires Enabled(s, step)
    ensures PlansEvolve(s, step, Do(s, step))
  {
    hide GuardPasses, HasUnresolved, KeyTaken, ChargedOn, CalculateBid;
    if step.Decide? {
      DecisionChangesBid(step.kind, step.params, step.ctx);
    }
  }

  lemma StepMovesCalls(s: State, step: Step)
    requires Enabled(s, step)
    ensures CallsEvolve(s, step, Do(s, step))
  {
    hide GuardPasses, HasUnresolved, KeyTaken, ChargedOn, CalculateBid;
  }

  lemma StepMovesLease(s: State, step: Step)
    requires Enabled(s, step)
    ensures LeaseEvolves(s, step, Do(s, step))
  {
    hide GuardPasses, HasUnresolved, KeyTaken, ChargedOn, CalculateBid;
  }

  lemma StepMovesSyncs(s: State, step: Step)
    requires Enabled(s, step)
    ensures SyncsEvolve(s, Do(s, step))
  {
    hide GuardPasses, HasUnresolved, KeyTaken, ChargedOn, CalculateBid;
  }

  lemma StepMovesEntries(s: State, step: Step)
    requires Enabled(s, step)
    ensures EntriesEvolve(s, Do(s, step))
  {
    hide GuardPasses, HasUnresolved, KeyTaken, ChargedOn, CalculateBid;
    var t := Do(s, step);
    if step.RecordAudit? {
      assert Carried(PhaseOf(s, step.w)) == Some(PhaseOf(s, step.w).id);
    } else if step.AuditReconciled? {
      assert forall i | i in t.audits && (i !in s.audits || t.audits[i] != s.audits[i]) :: LogsWhatItSaw(s, step.c, t, i);
    } else {
      assert t.audits == s.audits;
    }
  }

  lemma StepMovesReconcilers(s: State, step: Step)
    requires Enabled(s, step)
    ensures ReconcilersEvolve(s, Do(s, step))
  {
    hide GuardPasses, HasUnresolved, KeyTaken, ChargedOn, CalculateBid;
  }

  lemma StepMovesLogs(s: State, step: Step)
    requires Enabled(s, step)
    ensures LogsEvolve(s, Do(s, step))
  {
    hide Enabled, Do, SyncsEvolve, EntriesEvolve, ReconcilersEvolve;
    StepMovesSyncs(s, step);
    StepMovesEntries(s, step);
    StepMovesReconcilers(s, step);
  }

  // ------------------------------------------------------------------ invariants

  ghost predicate CarriersDistinct(s: State) {
    && (forall w: nat | Carried(PhaseOf(s, w)).Some? :: Carried(PhaseOf(s, w)).value < |s.actions|)
    && (forall v: nat, w: nat | v != w && Carried(PhaseOf(s, v)).Some? ::
          Carried(PhaseOf(s, v)) != Carried(PhaseOf(s, w)))
  }

  ghost predicate KeysDistinct(s: State) {
    forall i, j | 0 <= i < j < |s.actions| :: KeyOf(s.actions[i].plan) != KeyOf(s.actions[j].plan)
  }

  ghost predicate WrittenOnce(s: State) {
    && (forall i | 0 <= i < |s.writes| :: s.writes[i].id < |s.actions|)
    && (forall i, j | 0 <= i < j < |s.writes| :: s.writes[i].id != s.writes[j].id)
    && (forall w: nat, i | BeforeCall(PhaseOf(s, w)) && 0 <= i < |s.writes| :: s.writes[i].id != PhaseOf(s, w).id)
  }

  ghost predicate UnresolvedApart(s: State) {
    forall i, j | 0 <= i < j < |s.actions| && Unresolved(s.actions[i].status) && Unresolved(s.actions[j].status) ::
      !Overlaps(s.actions[i].plan.target, s.actions[j].plan.target)
  }

  /** No other unresolved action touches the target of action `id`. */
  ghost predicate Alone(s: State, id: nat)
    requires id < |s.actions|
  {
    forall j | 0 <= j < |s.actions| && j != id && Unresolved(s.actions[j].status) ::
      !Overlaps(s.actions[j].plan.target, s.actions[id].plan.target)
  }

  ghost predicate LeaseProtects(s: State) {
    forall w: nat | PhaseOf(s, w).Leased? || PhaseOf(s, w).Written? ::
      && s.lease == Some(w)
      && PhaseOf(s, w).id < |s.actions|
      && (PhaseOf(s, w).Leased? ==> Alone(s, PhaseOf(s, w).id) && AllowsWrites(s.settings))
  }

  ghost predicate EveryPlanChangesBid(s: State) {
    && (forall i | 0 <= i < |s.actions| :: s.actions[i].plan.oldBid != s.actions[i].plan.newBid)
    && (forall w: nat | Planning(PhaseOf(s, w)) :: PhaseOf(s, w).plan.oldBid != PhaseOf(s, w).plan.newBid)
  }

  /** `obs` was synchronised for the action's target and is newer than the claim and its observation. */
  ghost predicate Supports(s: State, id: nat, obs: Observation) {
    id < |s.actions| && (s.actions[id].plan.target, obs) in s.synced && Fresh(s.actions[id], obs)
  }

  ghost predicate LogsInBounds(s: State) {
    && (forall t | t in s.observed :: (t, s.observed[t]) in s.synced)
    && (forall i | i in s.audits :: i < |s.actions|)
  }

  /** Every reconciler at work has a fresh observation, and after its first update a log entry. */
  ghost predicate ReconcilersSupported(s: State) {
    forall c: nat | !ReconcilerOf(s, c).Waiting? ::
      && Supports(s, ReconcilerOf(s, c).id, ReconcilerOf(s, c).obs)
      && (ReconcilerOf(s, c).AuditWritten? ==> ReconcilerOf(s, c).id in s.audits)
  }

  ghost predicate ResolutionsSupported(s: State) {
    forall i: nat | i < |s.actions| && s.actions[i].evidence.Some? ::
      && Supports(s, i, s.actions[i].evidence.value)
      && !Unresolved(s.actions[i].status)
      && s.actions[i].status == ReconciledStatus(s.actions[i].plan, s.actions[i].evidence.value.bid)
      && i in s.audits
  }

  ghost predicate Evidenced(s: State) {
    LogsInBounds(s) && ReconcilersSupported(s) && ResolutionsSupported(s)
  }

  ghost predicate Inv(s: State) {
    && CarriersDistinct(s) && KeysDistinct(s) && WrittenOnce(s) && UnresolvedApart(s)
    && LeaseProtects(s) && EveryPlanChangesBid(s) && Evidenced(s)
  }

  // ---------------------------------------------------------------- preservation

  lemma CarriersStayDistinct(s: State, step: Step, t: State)
    requires CarriersDistinct(s) && RowsEvolve(s, t) && WorkersEvolve(s, step, t)
    ensures CarriersDistinct(t)
  {
  }

  lemma KeysStayDistinct(s: State, t: State)
    requires KeysDistinct(s) && RowsEvolve(s, t)
    ensures KeysDistinct(t)
  {
  }

  lemma StaysWrittenOnce(s: State, step: Step, t: State)
    requires CarriersDistinct(s) && WrittenOnce(s)
    requires RowsEvolve(s, t) && WorkersEvolve(s, step, t) && CallsEvolve(s, step, t)
    ensures WrittenOnce(t)
  {
  }

  lemma UnresolvedStayApart(s: State, t: State)
    requires UnresolvedApart(s) && RowsEvolve(s, t)
    ensures UnresolvedApart(t)
  {
  }

  lemma LeaseStillProtects(s: State, step: Step, t: State)
    requires UnresolvedApart(s) && LeaseProtects(s)
    requires RowsEvolve(s, t) && WorkersEvolve(s, step, t) && CallsEvolve(s, step, t) && LeaseEvolves(s, step, t)
    ensures LeaseProtects(t)
  {
  }

  lemma PlansStillChangeBid(s: State, step: Step, t: State)
    requires EveryPlanChangesBid(s) && RowsEvolve(s, t)
    requires WorkersEvolve(s, step, t) && PlansEvolve(s, step, t)
    ensures EveryPlanChangesBid(t)
  {
  }

  lemma SupportStays(s: State, t: State, id: nat, obs: Observation)
    requires Supports(s, id, obs) && RowsEvolve(s, t) && SyncsEvolve(s, t)
    ensures Supports(t, id, obs)
  {
    assert SameClaim(s.actions[id], t.actions[id]);
  }

  lemma LogsStayInBounds(s: State, t: State)
    requires CarriersDistinct(s) && LogsInBounds(s) && RowsEvolve(s, t) && SyncsEvolve(s, t) && EntriesEvolve(s, t)
    ensures LogsInBounds(t)
  {
  }

  lemma ReconcilersStaySupported(s: State, t: State)
    requires LogsInBounds(s) && ReconcilersSupported(s) && RowsEvolve(s, t) && LogsEvolve(s, t)
    ensures ReconcilersSupported(t)
  {
    forall c: nat | !ReconcilerOf(t, c).Waiting?
      ensures Supports(t, ReconcilerOf(t, c).id, ReconcilerOf(t, c).obs)
      ensures ReconcilerOf(t, c).AuditWritten? ==> ReconcilerOf(t, c).id in t.audits
    {
      var q := ReconcilerOf(t, c);
      assert Supports(s, q.id, q.obs);
      SupportStays(s, t, q.id, q.obs);
    }
  }

  lemma ResolutionsStaySupported(s: State, t: State)
    requires ReconcilersSupported(s) && ResolutionsSupported(s) && RowsEvolve(s, t) && LogsEvolve(s, t)
    ensures ResolutionsSupported(t)
  {
    forall i: nat | i < |t.actions| && t.actions[i].evidence.Some?
      ensures Supports(t, i, t.actions[i].evidence.value) && i in t.audits
      ensures !Unresolved(t.actions[i].status)
      ensures t.actions[i].status == ReconciledStatus(t.actions[i].plan, t.actions[i].evidence.value.bid)
    {
      var obs := t.actions[i].evidence.value;
      assert i < |s.actions| && SameClaim(s.actions[i], t.actions[i]);
      assert Supports(s, i, obs) && i in s.audits;
      SupportStays(s, t, i, obs);
    }
  }

  lemma StaysEvidenced(s: State, t: State)
    requires CarriersDistinct(s) && Evidenced(s) && RowsEvolve(s, t) && LogsEvolve(s, t)
    ensures Evidenced(t)
  {
    LogsStayInBounds(s, t);
    ReconcilersStaySupported(s, t);
    ResolutionsStaySupported(s, t);
  }

  lemma InvPreserved(s: State, step: Step)
    requires Enabled(s, step) && Inv(s)
    ensures Inv(Do(s, step))
  {
    hide Enabled, Do;
    var t := Do(s, step);
    StepMovesRows(s, step);
    StepMovesWorkers(s, step);
    StepMovesPlans(s, step);
    StepMovesCalls(s, step);
    StepMovesLease(s, step);
    StepMovesLogs(s, step);
    CarriersStayDistinct(s, step, t);
    KeysStayDistinct(s, t);
    StaysWrittenOnce(s, step, t);
    UnresolvedStayApart(s, t);
    LeaseStillProtects(s, step, t);
    PlansStillChangeBid(s, step, t);
    StaysEvidenced(s, t);
  }

  lemma {:induction false} InvAlways(r: Run, i: nat)
    requires IsRun(r) && i < |r.states|
    ensures Inv(r.states[i])
  {
    hide Enabled, Do;
    if i > 0 {
      InvAlways(r, i - 1);
      InvPreserved(r.states[i - 1], r.steps[i - 1]);
    }
  }

  // -------------------------------------------------------------------- theorems

  /**
    In every interleaving at most one marketplace call is made for an observation, and no action is
    ever sent twice, whatever became of its first call.
  */
  lemma OneCallPerObservation(r: Run, i: nat)
    requires IsRun(r) && i < |r.states|
    ensures forall a, b | 0 <= a < b < |r.states[i].writes| ::
              var s := r.states[i];
              && s.writes[a].id < |s.actions| && s.writes[b].id < |s.actions|
              && KeyOf(s.actions[s.writes[a].id].plan) != KeyOf(s.actions[s.writes[b].id].plan)
  {
    InvAlways(r, i);
  }

  /** A call is only made while no other action on an overlapping target is pending or unknown. */
  lemma CallsAreAlone(r: Run, k: nat)
    requires IsRun(r) && k < |r.steps| && r.steps[k].Call?
    ensures PhaseOf(r.states[k], r.steps[k].w).Leased?
    ensures var id := PhaseOf(r.states[k], r.steps[k].w).id;
            id < |r.states[k].actions| && Alone(r.states[k], id)
  {
    InvAlways(r, k);
    assert Enabled(r.states[k], r.steps[k]);
  }

  /** Nobody carries the action any more: its worker crashed, or gave up after the call. */
  ghost predicate Orphaned(s: State, x: nat) {
    forall w: nat :: Carried(PhaseOf(s, w)) != Some(x)
  }

  /** The step is a reconciler's resolution of the action. */
  ghost predicate ResolvedBy(s: State, step: Step, x: nat) {
    step.Resolve? && ReconcilerOf(s, step.c).AuditWritten? && ReconcilerOf(s, step.c).id == x
  }

  /** The outcome of an action is set by the worker that carries it or by the reconciler. */
  lemma WhoChangesAnAction(s: State, step: Step, x: nat)
    requires Enabled(s, step) && x < |s.actions| && Do(s, step).actions[x] != s.actions[x]
    ensures || ResolvedBy(s, step, x)
            || (Actor(step).Some? && Carried(PhaseOf(s, Actor(step).value)) == Some(x))
  {
    hide GuardPasses, HasUnresolved, KeyTaken, ChargedOn, CalculateBid;
  }

  lemma OrphansStayOrphaned(s: State, step: Step, x: nat)
    requires Enabled(s, step) && x < |s.actions| && Orphaned(s, x)
    ensures Orphaned(Do(s, step), x)
  {
    StepMovesWorkers(s, step);
  }

  /** Between two states of a run an action that was unresolved and no longer is was resolved by some step. */
  lemma {:induction false} SomeStepResolved(r: Run, x: nat, i: nat, k: nat) returns (m: nat)
    requires IsRun(r) && i <= k < |r.states| && x < |r.states[i].actions|
    requires Unresolved(r.states[i].actions[x].status)
    requires x < |r.states[k].actions| ==> !Unresolved(r.states[k].actions[x].status)
    ensures i <= m < k && x < |r.states[m].actions| && x < |r.states[m + 1].actions|
    ensures Unresolved(r.states[m].actions[x].status) && !Unresolved(r.states[m + 1].actions[x].status)
    ensures Orphaned(r.states[i], x) ==> ResolvedBy(r.states[m], r.steps[m], x)
    decreases k - i
  {
    hide Enabled, Do;
    StepMovesRows(r.states[i], r.steps[i]);
    assert r.states[i + 1] == Do(r.states[i], r.steps[i]);
    if Unresolved(r.states[i + 1].actions[x].status) {
      if Orphaned(r.states[i], x) {
        OrphansStayOrphaned(r.states[i], r.steps[i], x);
      }
      m := SomeStepResolved(r, x, i + 1, k);
    } else {
      m := i;
      WhoChangesAnAction(r.states[i], r.steps[i], x);
    }
  }

  /**
    Once an action is pending or unknown, no other call reaches an overlapping target until it is
    resolved; if its worker is gone, only a reconciler can have resolved it.
  */
  lemma UnresolvedHoldsItsTarget(r: Run, x: nat, i: nat, k: nat) returns (m: nat)
    requires IsRun(r) && i <= k < |r.steps| && x < |r.states[i].actions|
    requires Unresolved(r.states[i].actions[x].status)
    requires r.steps[k].Call? && PhaseOf(r.states[k], r.steps[k].w).Leased?
    requires var id := PhaseOf(r.states[k], r.steps[k].w).id;
             && id != x && id < |r.states[k].actions|
             && Overlaps(r.states[i].actions[x].plan.target, r.states[k].actions[id].plan.target)
    ensures i <= m < k && x < |r.states[m].actions| && x < |r.states[m + 1].actions|
    ensures Unresolved(r.states[m].actions[x].status) && !Unresolved(r.states[m + 1].actions[x].status)
    ensures Orphaned(r.states[i], x) ==> ResolvedBy(r.states[m], r.steps[m], x)
  {
    CallsAreAlone(r, k);
    ClaimsAreFixed(r, x, i, k);
    m := SomeStepResolved(r, x, i, k);
  }

  /** What an action is about never changes. */
  lemma {:induction false} ClaimsAreFixed(r: Run, x: nat, i: nat, k: nat)
    requires IsRun(r) && i <= k < |r.states| && x < |r.states[i].actions|
    ensures x < |r.states[k].actions| && SameClaim(r.states[i].actions[x], r.states[k].actions[x])
    decreases k
  {
    hide Enabled, Do;
    if i < k {
      ClaimsAreFixed(r, x, i, k - 1);
      StepMovesRows(r.states[k - 1], r.steps[k - 1]);
      assert r.states[k] == Do(r.states[k - 1], r.steps[k - 1]);
    }
  }

  /** Step `i` reloaded the strategy of claimed action `id` and found it switched on. */
  ghost predicate ReloadedActive(r: Run, i: nat, w: nat, id: nat) {
    && i < |r.steps| && i < |r.states| && r.steps[i] == ReloadStrategy(w)
    && PhaseOf(r.states[i], w).SettingsReloaded? && PhaseOf(r.states[i], w).id == id
    && id < |r.states[i].actions| && r.states[i].actions[id].plan.strategy in r.states[i].active
  }

  lemma PhaseBefore(s: State, step: Step, w: nat)
    requires Enabled(s, step)
    requires var q := PhaseOf(Do(s, step), w); q.Reloaded? || q.CapReloaded? || q.Leased?
    ensures var p, q := PhaseOf(s, w), PhaseOf(Do(s, step), w);
            || step == ReloadStrategy(w)
            || ((p.Reloaded? || p.CapReloaded? || p.Leased?) && p.id == q.id)
    ensures step == ReloadStrategy(w) ==>
              var p, q := PhaseOf(s, w), PhaseOf(Do(s, step), w);
              && p.SettingsReloaded? && p.id == q.id && p.id < |s.actions|
              && s.actions[p.id].plan.strategy in s.active
  {
    hide GuardPasses, HasUnresolved, KeyTaken, ChargedOn, CalculateBid;
  }

  lemma {:induction false} ReloadPrecedes(r: Run, j: nat, w: nat) returns (i: nat)
    requires IsRun(r) && j < |r.states|
    requires var q := PhaseOf(r.states[j], w); q.Reloaded? || q.CapReloaded? || q.Leased?
    ensures i < j && ReloadedActive(r, i, w, PhaseOf(r.states[j], w).id)
  {
    hide Enabled, Do;
    var s, step := r.states[j - 1], r.steps[j - 1];
    assert r.states[j] == Do(s, step);
    PhaseBefore(s, step, w);
    if step == ReloadStrategy(w) {
      i := j - 1;
    } else {
      i := ReloadPrecedes(r, j - 1, w);
    }
  }

  /**
    At the moment of every call automation is enabled, not on hold and has a positive cap, and after
    the claim the strategy was reloaded and found switched on.
  */
  lemma CallsObeyOperator(r: Run, k: nat) returns (i: nat)
    requires IsRun(r) && k < |r.steps| && r.steps[k].Call?
    ensures AllowsWrites(r.states[k].settings)
    ensures PhaseOf(r.states[k], r.steps[k].w).Leased?
    ensures i < k && ReloadedActive(r, i, r.steps[k].w, PhaseOf(r.states[k], r.steps[k].w).id)
  {
    InvAlways(r, k);
    assert Enabled(r.states[k], r.steps[k]);
    i := ReloadPrecedes(r, k, r.steps[k].w);
  }

  /**
    A reconciled status comes from a bid synchronised for that target after the claim and after the
    observation behind the decision; "applied" and "not applied" cannot be mixed up; and the change log has
    an entry for it.
  */
  lemma ReconciledIsEvidenced(r: Run, i: nat, id: nat)
    requires IsRun(r) && i < |r.states| && id < |r.states[i].actions|
    requires r.states[i].actions[id].evidence.Some?
    ensures var s, a := r.states[i], r.states[i].actions[id]; var obs := a.evidence.value;
            && (a.plan.target, obs) in s.synced && obs.at > a.createdAt && obs.at > a.plan.observedAt
            && (a.status.Applied? <==> obs.bid == a.plan.newBid)
            && (a.status.NotApplied? <==> obs.bid == a.plan.oldBid)
            && (a.status.Superseded? <==> obs.bid != a.plan.newBid && obs.bid != a.plan.oldBid)
            && id in s.audits
  {
    InvAlways(r, i);
  }

  // ------------------------------------------------------------ on the rows themselves

  /** An open action with whom a plan cannot be carried out: same campaign and placement, and no two separate products. */
  ghost predicate InTheWay(s: State, x: nat, t: Target) {
    && x < |s.actions| && (s.actions[x].status.Pending? || s.actions[x].status.Unknown?)
    && var u := s.actions[x].plan.target;
       && u.campaign == t.campaign && u.placement == t.placement
       && !(u.product.Some? && t.product.Some? && u.product.value != t.product.value)
  }

  /**
    At a call, an action of the same campaign and placement that is pending or unknown is for another product: an
    open campaign-wide action stops the calls of every product, and an open product action the campaign-wide one.
  */
  lemma OpenActionsAreForOtherProducts(r: Run, k: nat, x: nat)
    requires IsRun(r) && k < |r.steps| && r.steps[k].Call? && x < |r.states[k].actions|
    requires r.states[k].actions[x].status.Pending? || r.states[k].actions[x].status.Unknown?
    requires x != PhaseOf(r.states[k], r.steps[k].w).id
    ensures PhaseOf(r.states[k], r.steps[k].w).id < |r.states[k].actions|
    ensures var a, b := r.states[k].actions[x].plan.target,
                        r.states[k].actions[PhaseOf(r.states[k], r.steps[k].w).id].plan.target;
            a.campaign == b.campaign && a.placement == b.placement ==>
              a.product.Some? && b.product.Some? && a.product.value != b.product.value
  {
    hide Enabled, Do;
    CallsAreAlone(r, k);
  }

  /** The unresolved check lets a plan pass exactly if no open action is in its way. */
  lemma ChecksClearIff(s: State, w: nat)
    requires PhaseOf(s, w).Guarded?
    ensures Enabled(s, CheckUnresolved(w)) <==> forall x: nat :: !InTheWay(s, x, PhaseOf(s, w).plan.target)
  {
    UnresolvedIsInTheWay(s, PhaseOf(s, w).plan.target);
  }

  lemma UnresolvedIsInTheWay(s: State, t: Target)
    ensures HasUnresolved(s, t) <==> exists x: nat :: InTheWay(s, x, t)
  {
    if x: nat :| InTheWay(s, x, t) {
      assert Unresolved(s.actions[x].status) && Overlaps(s.actions[x].plan.target, t);
    }
    if HasUnresolved(s, t) {
      var i :| 0 <= i < |s.actions| && Unresolved(s.actions[i].status) && Overlaps(s.actions[i].plan.target, t);
      assert InTheWay(s, i, t);
    }
  }

  /** The same bid, observed at the same time for the same target, has been claimed before. */
  ghost predicate ClaimedBefore(s: State, x: nat, p: Plan) {
    x < |s.actions| && s.actions[x].plan.target == p.target && s.actions[x].plan.oldBid == p.oldBid
    && s.actions[x].plan.observedAt == p.observedAt
  }

  /** Two calls never answer the same observation of a target. */
  lemma CallsAnswerDifferentObservations(r: Run, k: nat, a: nat, b: nat)
    requires IsRun(r) && k < |r.states| && a < b < |r.states[k].writes|
    ensures var s := r.states[k];
            && s.writes[a].id < |s.actions| && s.writes[b].id < |s.actions|
            && !ClaimedBefore(s, s.writes[a].id, s.actions[s.writes[b].id].plan)
  {
    hide Enabled, Do;
    InvAlways(r, k);
    OneCallPerObservation(r, k);
  }

  /** A claim is refused exactly if an open action is in the way or the observation has been claimed before. */
  lemma ClaimIsRefusedIff(s: State, w: nat)
    requires Enabled(s, Claim(w))
    ensures Do(s, Claim(w)).actions == s.actions <==>
              || (exists x: nat :: InTheWay(s, x, PhaseOf(s, w).plan.target))
              || (exists x: nat :: ClaimedBefore(s, x, PhaseOf(s, w).plan))
  {
    var p := PhaseOf(s, w).plan;
    UnresolvedIsInTheWay(s, p.target);
    KeyIsClaimedBefore(s, p);
    hide HasUnresolved, KeyTaken, InTheWay, ClaimedBefore, ChargedOn;
  }

  lemma KeyIsClaimedBefore(s: State, p: Plan)
    ensures KeyTaken(s, KeyOf(p)) <==> exists x: nat :: ClaimedBefore(s, x, p)
  {
    if x: nat :| ClaimedBefore(s, x, p) {
      assert KeyOf(s.actions[x].plan) == KeyOf(p);
    }
    if KeyTaken(s, KeyOf(p)) {
      var i :| 0 <= i < |s.actions| && KeyOf(s.actions[i].plan) == KeyOf(p);
      assert ClaimedBefore(s, i, p);
    }
  }
}
