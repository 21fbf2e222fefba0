/**
  What the tables say about a call to the marketplace. Action and log are followed back, over whole runs, to
  the call itself and to its answer: accepted, refused or unknown.
*/
module CallOutcomes {
  import opened Numeric
  import opened WriteProtocol
  import opened WriteSafety
  import opened LogAgreement

  // --------------------------------------------------------------- calls of an action

  /** Step `m` sends action `x` to the marketplace, which answers with `o`. */
  ghost predicate CalledAt(r: Run, m: nat, x: nat, o: Outcome) {
    m < |r.steps| && m < |r.states| && r.steps[m].Call? && r.steps[m].outcome == o
    && PhaseOf(r.states[m], r.steps[m].w) == Leased(x)
  }

  ghost predicate NeverCalled(r: Run, k: nat, x: nat) {
    forall m: nat, o | m < k :: !CalledAt(r, m, x, o)
  }

  /** Before state `k` the action was sent once, and that was the answer. */
  ghost predicate OnlyCall(r: Run, k: nat, x: nat, o: Outcome) {
    && (exists m: nat :: m < k && CalledAt(r, m, x, o))
    && (forall m: nat, other | m < k && CalledAt(r, m, x, other) :: other == o)
  }

  /** A status says accepted, refused or unknown exactly if the marketplace did. */
  predicate Reports(status: Status, o: Outcome) {
    && (status.Applied? <==> o.WbApplied?)
    && (status.Failed? <==> o.WbFailed?)
    && (status.Unknown? <==> o.WbUnknown?)
  }

  ghost predicate Sent(s: State, x: nat) {
    exists i :: 0 <= i < |s.writes| && s.writes[i].id == x
  }

  lemma CallSends(r: Run, k: nat, x: nat)
    requires IsRun(r) && k < |r.steps|
    ensures Sent(r.states[k + 1], x) <==> Sent(r.states[k], x) || exists o :: CalledAt(r, k, x, o)
  {
    hide Enabled, Do;
    var s, step, t := r.states[k], r.steps[k], r.states[k + 1];
    StepMovesCalls(s, step);
    if step.Call? {
      var n := |s.writes|;
      assert t.writes[n].id == PhaseOf(s, step.w).id;
      assert forall i | 0 <= i < n :: t.writes[i] == s.writes[i];
      assert PhaseOf(s, step.w).id == x ==> CalledAt(r, k, x, step.outcome);
      assert Sent(s, x) ==> Sent(t, x);
    }
  }

  lemma {:induction false} NeverCalledIffUnsent(r: Run, k: nat, x: nat)
    requires IsRun(r) && k < |r.states|
    ensures NeverCalled(r, k, x) <==> !Sent(r.states[k], x)
  {
    hide Enabled, Do, Sent, CalledAt;
    if k > 0 {
      NeverCalledIffUnsent(r, k - 1, x);
      CallSends(r, k - 1, x);
    } else {
      NothingSentAtFirst(r, x);
    }
  }

  lemma NothingSentAtFirst(r: Run, x: nat)
    requires IsRun(r)
    ensures !Sent(r.states[0], x)
  {
    hide Enabled, Do;
  }

  /** A call is the first of its action. */
  lemma CallIsFirst(r: Run, k: nat, x: nat, o: Outcome)
    requires IsRun(r)
    ensures CalledAt(r, k, x, o) ==> NeverCalled(r, k, x) && OnlyCall(r, k + 1, x, o)
  {
    hide Enabled, Do;
    if CalledAt(r, k, x, o) {
      InvAlways(r, k);
      assert BeforeCall(PhaseOf(r.states[k], r.steps[k].w));
      assert WrittenOnce(r.states[k]);
      NeverCalledIffUnsent(r, k, x);
    }
  }

  /** And the only one. */
  lemma OnlyCallStays(r: Run, k: nat, x: nat, o: Outcome)
    requires IsRun(r) && k < |r.steps| && OnlyCall(r, k, x, o)
    ensures OnlyCall(r, k + 1, x, o)
  {
    hide Enabled, Do, CalledAt;
    forall other {
      CallIsFirst(r, k, x, other);
    }
  }

  // ------------------------------------------------------------- the worker's knowledge

  predicate PastCall(p: Phase) {
    p.Written? || p.Released? || p.Audited?
  }

  /** Past the call a worker keeps the answer it got. */
  lemma AnswerIsKept(s: State, step: Step, w: nat)
    requires Enabled(s, step) && PastCall(PhaseOf(Do(s, step), w))
    ensures var p, q := PhaseOf(s, w), PhaseOf(Do(s, step), w);
            || (PastCall(p) && p.id == q.id && p.outcome == q.outcome)
            || (step == Call(w, q.outcome) && p == Leased(q.id))
  {
    hide GuardPasses, HasUnresolved, KeyTaken, ChargedOn;
  }

  lemma {:induction false} WorkerKnowsAnswer(r: Run, k: nat, w: nat)
    requires IsRun(r) && k < |r.states| && PastCall(PhaseOf(r.states[k], w))
    ensures OnlyCall(r, k, PhaseOf(r.states[k], w).id, PhaseOf(r.states[k], w).outcome)
  {
    hide Enabled, Do, OnlyCall;
    NobodyPastCallAtFirst(r, w);
    AnswerIsKept(r.states[k - 1], r.steps[k - 1], w);
    var q := PhaseOf(r.states[k], w);
    if PastCall(PhaseOf(r.states[k - 1], w)) {
      WorkerKnowsAnswer(r, k - 1, w);
      OnlyCallStays(r, k - 1, q.id, q.outcome);
    } else {
      CallIsFirst(r, k - 1, q.id, q.outcome);
    }
  }

  lemma NobodyPastCallAtFirst(r: Run, w: nat)
    requires IsRun(r)
    ensures PhaseOf(r.states[0], w).Idle?
  {
    hide Enabled, Do;
  }

  // ------------------------------------------------------------------ the action table

  lemma CompleteReports(s: State, w: nat)
    requires Enabled(s, Complete(w))
    ensures var p, t := PhaseOf(s, w), Do(s, Complete(w));
            && p.Audited? && p.id < |s.actions| == |t.actions|
            && (s.actions[p.id].status.Pending? ==> Reports(t.actions[p.id].status, p.outcome))
            && (!s.actions[p.id].status.Pending? ==> t.actions[p.id] == s.actions[p.id])
  {
  }

  lemma BlockBlocks(s: State, w: nat)
    requires Enabled(s, BlockClaim(w))
    ensures var p, t := PhaseOf(s, w), Do(s, BlockClaim(w));
            && BeforeCall(p) && p.id < |s.actions| == |t.actions|
            && (t.actions[p.id] == s.actions[p.id] || t.actions[p.id].status.Blocked?)
  {
  }

  /** What a worker carries is pending, or a reconciler has resolved it. */
  ghost predicate CarriesPending(s: State, w: nat) {
    Carried(PhaseOf(s, w)).Some? ==>
      var x := Carried(PhaseOf(s, w)).value;
      x < |s.actions| && (s.actions[x].status.Pending? || s.actions[x].evidence.Some?)
  }

  ghost predicate EndedIsDropped(s: State) {
    forall w: nat :: CarriesPending(s, w)
  }

  lemma EndedIsNotCarried(s: State, x: nat)
    requires EndedIsDropped(s) && x < |s.actions| && !s.actions[x].status.Pending? && s.actions[x].evidence.None?
    ensures forall w: nat :: Carried(PhaseOf(s, w)) != Some(x)
  {
    forall w: nat ensures Carried(PhaseOf(s, w)) != Some(x) {
      assert CarriesPending(s, w);
    }
  }

  lemma StillCarriesPending(s: State, step: Step, t: State, w: nat)
    requires CarriesPending(s, w) && CarriersDistinct(s)
    requires RowsEvolve(s, t) && WorkersEvolve(s, step, t) && EndsEvolve(s, step, t)
    ensures CarriesPending(t, w)
  {
    hide FreshClaim;
  }

  lemma EndedStaysDropped(s: State, step: Step, t: State)
    requires EndedIsDropped(s) && CarriersDistinct(s)
    requires RowsEvolve(s, t) && WorkersEvolve(s, step, t) && EndsEvolve(s, step, t)
    ensures EndedIsDropped(t)
  {
    hide CarriesPending, RowsEvolve, WorkersEvolve, EndsEvolve, CarriersDistinct;
    forall w: nat ensures CarriesPending(t, w) {
      assert CarriesPending(s, w);
      StillCarriesPending(s, step, t, w);
    }
  }

  lemma {:induction false} AlwaysDropped(r: Run, k: nat)
    requires IsRun(r) && k < |r.states|
    ensures EndedIsDropped(r.states[k])
  {
    hide Enabled, Do;
    if k > 0 {
      var s, step := r.states[k - 1], r.steps[k - 1];
      AlwaysDropped(r, k - 1);
      InvAlways(r, k - 1);
      StepMovesRows(s, step);
      StepMovesWorkers(s, step);
      StepMovesEnds(s, step);
      assert CarriersDistinct(s);
      EndedStaysDropped(s, step, r.states[k]);
    }
  }

  /** What an ended action says about its call: blocked and never sent, or sent once and reported as answered. */
  ghost predicate Told(r: Run, k: nat, x: nat)
    requires k < |r.states| && x < |r.states[k].actions|
  {
    var a := r.states[k].actions[x];
    !a.status.Pending? && a.evidence.None? ==>
      if a.status.Blocked? then NeverCalled(r, k, x)
      else exists o :: OnlyCall(r, k, x, o) && Reports(a.status, o)
  }

  lemma ToldStays(r: Run, k: nat, x: nat)
    requires IsRun(r) && k < |r.steps| && x < |r.states[k].actions| && Told(r, k, x)
    requires x < |r.states[k + 1].actions| && r.states[k + 1].actions[x] == r.states[k].actions[x]
    ensures Told(r, k + 1, x)
  {
    hide Enabled, Do, CalledAt, OnlyCall, Reports;
    var a := r.states[k].actions[x];
    if !a.status.Pending? && a.evidence.None? {
      if a.status.Blocked? {
        AlwaysDropped(r, k);
        EndedIsNotCarried(r.states[k], x);
        DroppedIsNotCalled(r, k, x);
      } else {
        var o :| OnlyCall(r, k, x, o) && Reports(a.status, o);
        OnlyCallStays(r, k, x, o);
      }
    }
  }

  lemma DroppedIsNotCalled(r: Run, k: nat, x: nat)
    requires forall w: nat :: k < |r.states| ==> Carried(PhaseOf(r.states[k], w)) != Some(x)
    ensures forall o :: !CalledAt(r, k, x, o)
  {
  }

  /** The worker that ends an action tells what it knows about its call. */
  lemma EndIsTold(r: Run, k: nat, x: nat)
    requires IsRun(r) && k < |r.steps| && x < |r.states[k].actions| && x < |r.states[k + 1].actions|
    requires r.steps[k].Complete? || r.steps[k].BlockClaim?
    requires Carried(PhaseOf(r.states[k], r.steps[k].w)) == Some(x) && r.states[k + 1].actions[x] != r.states[k].actions[x]
    ensures Told(r, k + 1, x)
  {
    hide Enabled, Do, CalledAt, OnlyCall, Reports;
    var s, w := r.states[k], r.steps[k].w;
    if r.steps[k].Complete? {
      CompleteReports(s, w);
      WorkerKnowsAnswer(r, k, w);
      OnlyCallStays(r, k, x, PhaseOf(s, w).outcome);
    } else {
      BlockBlocks(s, w);
      InvAlways(r, k);
      assert WrittenOnce(s);
      hide Inv;
      NeverCalledIffUnsent(r, k, x);
      CallSends(r, k, x);
      NeverCalledIffUnsent(r, k + 1, x);
      BlockIsNoCall(r, k, x);
    }
  }

  lemma BlockIsNoCall(r: Run, k: nat, x: nat)
    requires k < |r.steps| && !r.steps[k].Call?
    ensures forall o :: !CalledAt(r, k, x, o)
  {
  }

  lemma {:induction false} AlwaysTold(r: Run, k: nat, x: nat)
    requires IsRun(r) && k < |r.states| && x < |r.states[k].actions|
    ensures Told(r, k, x)
  {
    hide Enabled, Do, Told;
    NoActionsAtFirst(r);
    var s, step, t := r.states[k - 1], r.steps[k - 1], r.states[k];
    StepTellsWho(s, step);
    StepMovesRows(s, step);
    if x >= |s.actions| {
      NewClaimIsTold(r, k, x);
    } else {
      AlwaysTold(r, k - 1, x);
      if t.actions[x] == s.actions[x] {
        ToldStays(r, k - 1, x);
      } else if t.actions[x].evidence.None? {
        EndIsTold(r, k - 1, x);
      } else {
        ResolvedNeedsNoCall(r, k, x);
      }
    }
  }

  lemma NoActionsAtFirst(r: Run)
    requires IsRun(r)
    ensures r.states[0].actions == []
  {
    hide Enabled, Do;
  }

  lemma ResolvedNeedsNoCall(r: Run, k: nat, x: nat)
    requires k < |r.states| && x < |r.states[k].actions| && r.states[k].actions[x].evidence.Some?
    ensures Told(r, k, x)
  {
  }

  lemma NewClaimIsTold(r: Run, k: nat, x: nat)
    requires IsRun(r) && 0 < k < |r.states| && |r.states[k - 1].actions| == x < |r.states[k].actions|
    requires RowsEvolve(r.states[k - 1], r.states[k])
    ensures Told(r, k, x)
  {
    hide Enabled, Do, CalledAt;
    InvAlways(r, k - 1);
    assert WrittenOnce(r.states[k - 1]);
    hide Inv;
    NeverCalledIffUnsent(r, k - 1, x);
    ClaimIsNoCall(r, k - 1, x);
  }

  lemma ClaimIsNoCall(r: Run, k: nat, x: nat)
    requires IsRun(r) && k < |r.steps| && |r.states[k].actions| <= x
    ensures forall o :: !CalledAt(r, k, x, o)
  {
    hide Enabled, Do;
    InvAlways(r, k);
    assert CarriersDistinct(r.states[k]);
    DroppedIsNotCalled(r, k, x);
  }

  /**
    In every run an action that is no longer pending and that no reconciler has resolved is blocked exactly if
    it was never sent, and otherwise shows what the marketplace answered to its only call.
  */
  lemma ActionTellsItsCall(r: Run, k: nat, x: nat)
    requires IsRun(r) && k < |r.states| && x < |r.states[k].actions|
    requires !r.states[k].actions[x].status.Pending? && r.states[k].actions[x].evidence.None?
    ensures var status := r.states[k].actions[x].status;
            && (status.Blocked? <==> NeverCalled(r, k, x))
            && (!status.Blocked? ==> exists o :: OnlyCall(r, k, x, o))
            && (forall o | OnlyCall(r, k, x, o) ::
                  && (status.Applied? <==> o.WbApplied?)
                  && (status.Failed? <==> o.WbFailed?)
                  && (status.Unknown? <==> o.WbUnknown?))
  {
    hide Enabled, Do, CalledAt;
    AlwaysTold(r, k, x);
  }

  // ----------------------------------------------------------------------- the change log

  lemma RecordReports(s: State, w: nat)
    requires Enabled(s, RecordAudit(w)) && PhaseOf(s, w).Released? && PhaseOf(s, w).id !in s.audits
    ensures var p, t := PhaseOf(s, w), Do(s, RecordAudit(w));
            p.id in t.audits && Reports(t.audits[p.id].status, p.outcome)
  {
  }

  /** In every run a log entry that no reconciler wrote shows what the marketplace answered to the action's only call. */
  lemma {:induction false} LogTellsItsCall(r: Run, k: nat, x: nat)
    requires IsRun(r) && k < |r.states| && x in r.states[k].audits && !ReconcilerLogged(r, k, x)
    ensures exists o :: OnlyCall(r, k, x, o)
    ensures var status := r.states[k].audits[x].status;
            forall o | OnlyCall(r, k, x, o) ::
              && (status.Applied? <==> o.WbApplied?)
              && (status.Failed? <==> o.WbFailed?)
              && (status.Unknown? <==> o.WbUnknown?)
  {
    hide Enabled, Do, CalledAt, ReconcilerLogged;
    NoLogAtFirst(r);
    var s, step, t := r.states[k - 1], r.steps[k - 1], r.states[k];
    if x in s.audits {
      EntryStays(r, k, x);
      LogTellsItsCall(r, k - 1, x);
      var o :| OnlyCall(r, k - 1, x, o);
      OnlyCallStays(r, k - 1, x, o);
    } else {
      StepWritesEntries(s, step);
      if step.AuditReconciled? {
        JustLogged(r, k, x);
      } else {
        var w := step.w;
        WorkerKnowsAnswer(r, k - 1, w);
        OnlyCallStays(r, k - 1, x, PhaseOf(s, w).outcome);
        RecordReports(s, w);
      }
    }
  }

  lemma NoLogAtFirst(r: Run)
    requires IsRun(r)
    ensures r.states[0].audits == map[]
  {
    hide Enabled, Do;
  }

  // ---------------------------------------------------------------- what applied stands for

  /** A bid synchronised for the action's target after its claim and its observation is the planned one. */
  ghost predicate NewBidSeen(s: State, x: nat) {
    x < |s.actions| && exists obs ::
      && (s.actions[x].plan.target, obs) in s.synced && obs.bid == s.actions[x].plan.newBid
      && obs.at > s.actions[x].createdAt && obs.at > s.actions[x].plan.observedAt
  }

  lemma {:induction false} SyncsAreKept(r: Run, m: nat, k: nat)
    requires IsRun(r) && m <= k < |r.states|
    ensures r.states[m].synced <= r.states[k].synced
    decreases k - m
  {
    hide Enabled, Do;
    if m < k {
      SyncsAreKept(r, m, k - 1);
      StepMovesSyncs(r.states[k - 1], r.steps[k - 1]);
    }
  }

  lemma ReconcilerSawNewBid(r: Run, k: nat, x: nat)
    requires IsRun(r) && k < |r.states| && ReconcilerLogged(r, k, x)
    requires x in r.states[k].audits && r.states[k].audits[x].status.Applied?
    ensures NewBidSeen(r.states[k], x)
  {
    hide Enabled, Do;
    var m: nat :| m < k && LogsAt(r, m, x) && Stands(r, m, k, x);
    var s, c := r.states[m], r.steps[m].c;
    InvAlways(r, m);
    assert ReconcilersSupported(s);
    hide Inv;
    assert r.states[m + 1].audits[x] == r.states[k].audits[x];
    SyncsAreKept(r, m, k);
    ClaimsAreFixed(r, x, m, k);
  }

  /**
    In every run a change shown as applied, in the log or by the action, was accepted by the marketplace in the
    action's only call, or the new bid was seen there later.
  */
  lemma AppliedIsBacked(r: Run, k: nat, x: nat)
    requires IsRun(r) && k < |r.states|
    requires || (x in r.states[k].audits && r.states[k].audits[x].status.Applied?)
             || (x < |r.states[k].actions| && r.states[k].actions[x].status.Applied?)
    ensures OnlyCall(r, k, x, WbApplied) || NewBidSeen(r.states[k], x)
  {
    hide Enabled, Do, OnlyCall, ReconcilerLogged;
    var s := r.states[k];
    if x in s.audits && s.audits[x].status.Applied? {
      if ReconcilerLogged(r, k, x) {
        ReconcilerSawNewBid(r, k, x);
      } else {
        LogTellsItsCall(r, k, x);
      }
    } else if s.actions[x].evidence.None? {
      ActionTellsItsCall(r, k, x);
    } else {
      ReconciledIsEvidenced(r, k, x);
    }
  }
}
