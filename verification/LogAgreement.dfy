/**
  When the change log and the action table agree about a finished action. A reconciler writes the log
  first and the action second, and in between the worker may end the action or another reconciler may
  write the log.
*/
module LogAgreement {
  import opened Numeric
  import opened WriteProtocol
  import opened WriteSafety

  /** A finished action and its log entry say the same; an action that was blocked has no entry. */
  ghost predicate Agrees(s: State, x: nat)
    requires x < |s.actions|
  {
    if s.actions[x].status.Blocked? then x !in s.audits
    else x in s.audits && s.audits[x].status == s.actions[x].status
  }

  /** The status with which a step ends an open action, if it does. */
  ghost function EndingStatus(s: State, step: Step, x: nat): Option<Status>
    requires x < |s.actions|
  {
    if step.Complete? && PhaseOf(s, step.w).Audited? && PhaseOf(s, step.w).id == x && s.actions[x].status.Pending?
       && !PhaseOf(s, step.w).outcome.WbUnknown? then Some(Recorded(PhaseOf(s, step.w).outcome))
    else if step.BlockClaim? && Carried(PhaseOf(s, step.w)) == Some(x) && s.actions[x].status.Pending? then Some(Blocked)
    else if ResolvedBy(s, step, x) && Unresolved(s.actions[x].status) then
      Some(ReconciledStatus(s.actions[x].plan, ReconcilerOf(s, step.c).obs.bid))
    else None
  }

  /** If the step ends the action, the log says at that moment what the step records. */
  ghost predicate EndsCleanly(s: State, step: Step, x: nat)
    requires x < |s.actions|
  {
    match EndingStatus(s, step, x)
    case None => true
    case Some(status) =>
      if status.Blocked? then x !in s.audits else x in s.audits && s.audits[x].status == status
  }

  /** What a worker still carries is open, or was resolved by the reconciler. */
  ghost predicate CarriedOpen(s: State) {
    forall w: nat | Carried(PhaseOf(s, w)).Some? ::
      var x := Carried(PhaseOf(s, w)).value;
      x < |s.actions| && (Unresolved(s.actions[x].status) || s.actions[x].evidence.Some?)
  }

  // ------------------------------------------------------- what one step can do

  /** An action ends by a reconciler, or by the worker that carries it and then lets go of it. */
  ghost predicate WhoEnds(s: State, step: Step, t: State) {
    && |s.actions| <= |t.actions|
    && (forall x: nat | x < |s.actions| && t.actions[x] != s.actions[x] ::
          && t.audits == s.audits
          && (|| (ResolvedBy(s, step, x) && t.actions[x].evidence.Some?)
              || ((step.Complete? || step.BlockClaim?) && Carried(PhaseOf(s, step.w)) == Some(x)
                  && PhaseOf(t, step.w).Idle? && s.actions[x].status.Pending? && !step.Resolve?)))
    && (|t.actions| > |s.actions| ==> t.audits == s.audits)
  }

  ghost predicate HowItEnds(s: State, step: Step, t: State) {
    && |s.actions| <= |t.actions|
    && (forall x: nat | x < |s.actions| && EndingStatus(s, step, x).Some? ::
          t.actions[x].status == EndingStatus(s, step, x).value)
  }

  /** A completion with an unknown outcome leaves the action open, and a new claim is pending. */
  ghost predicate WhatStaysOpen(s: State, step: Step, t: State) {
    && |s.actions| <= |t.actions|
    && (step.Complete? ==>
          && PhaseOf(s, step.w).Audited?
          && var p := PhaseOf(s, step.w);
             p.id < |s.actions| && (p.outcome.WbUnknown? && s.actions[p.id].status.Pending? ==> t.actions[p.id].status.Unknown?))
    && (forall w: nat | PhaseOf(t, w).Claimed? && PhaseOf(t, w) != PhaseOf(s, w) ::
          PhaseOf(t, w).id < |t.actions| && t.actions[PhaseOf(t, w).id].status.Pending?)
  }

  ghost predicate EndsEvolve(s: State, step: Step, t: State) {
    WhoEnds(s, step, t) && HowItEnds(s, step, t) && WhatStaysOpen(s, step, t)
  }

  lemma StepTellsWho(s: State, step: Step)
    requires Enabled(s, step)
    ensures WhoEnds(s, step, Do(s, step))
  {
    hide GuardPasses, HasUnresolved, KeyTaken, ChargedOn;
  }

  lemma CompleteEnds(s: State, w: nat, x: nat)
    requires Enabled(s, Complete(w)) && x < |s.actions| && EndingStatus(s, Complete(w), x).Some?
    ensures var t := Do(s, Complete(w)); x < |t.actions| && t.actions[x].status == EndingStatus(s, Complete(w), x).value
  {
  }

  lemma BlockEnds(s: State, w: nat, x: nat)
    requires Enabled(s, BlockClaim(w)) && x < |s.actions| && EndingStatus(s, BlockClaim(w), x).Some?
    ensures var t := Do(s, BlockClaim(w)); x < |t.actions| && t.actions[x].status == EndingStatus(s, BlockClaim(w), x).value
  {
  }

  lemma ResolveEnds(s: State, c: nat, x: nat)
    requires Enabled(s, Resolve(c)) && x < |s.actions| && EndingStatus(s, Resolve(c), x).Some?
    ensures var t := Do(s, Resolve(c)); x < |t.actions| && t.actions[x].status == EndingStatus(s, Resolve(c), x).value
  {
  }

  lemma StepTellsHow(s: State, step: Step)
    requires Enabled(s, step)
    ensures HowItEnds(s, step, Do(s, step))
  {
    StepTellsWho(s, step);
    hide Enabled, Do;
    forall x: nat | x < |s.actions| && EndingStatus(s, step, x).Some?
      ensures Do(s, step).actions[x].status == EndingStatus(s, step, x).value
    {
      if step.Complete? {
        CompleteEnds(s, step.w, x);
      } else if step.BlockClaim? {
        BlockEnds(s, step.w, x);
      } else {
        ResolveEnds(s, step.c, x);
      }
    }
  }

  lemma StepLeavesOpen(s: State, step: Step)
    requires Enabled(s, step)
    ensures WhatStaysOpen(s, step, Do(s, step))
  {
    hide GuardPasses, HasUnresolved, KeyTaken, ChargedOn;
  }

  lemma StepMovesEnds(s: State, step: Step)
    requires Enabled(s, step)
    ensures EndsEvolve(s, step, Do(s, step))
  {
    hide Enabled, Do, WhoEnds, HowItEnds, WhatStaysOpen;
    StepTellsWho(s, step);
    StepTellsHow(s, step);
    StepLeavesOpen(s, step);
  }

  lemma StaysCarriedOpen(s: State, step: Step, t: State)
    requires CarriedOpen(s) && CarriersDistinct(s)
    requires RowsEvolve(s, t) && WorkersEvolve(s, step, t) && EndsEvolve(s, step, t)
    ensures CarriedOpen(t)
  {
    forall w: nat | Carried(PhaseOf(t, w)).Some?
      ensures var x := Carried(PhaseOf(t, w)).value;
              x < |t.actions| && (Unresolved(t.actions[x].status) || t.actions[x].evidence.Some?)
    {
      var x := Carried(PhaseOf(t, w)).value;
      if PhaseOf(t, w) == PhaseOf(s, w) || !PhaseOf(t, w).Claimed? {
        assert Carried(PhaseOf(s, w)) == Some(x);
      }
    }
  }

  lemma {:induction false} AlwaysCarriedOpen(r: Run, k: nat)
    requires IsRun(r) && k < |r.states|
    ensures CarriedOpen(r.states[k])
  {
    hide Enabled, Do;
    if k > 0 {
      var s, step := r.states[k - 1], r.steps[k - 1];
      AlwaysCarriedOpen(r, k - 1);
      InvAlways(r, k - 1);
      StepMovesRows(s, step);
      StepMovesWorkers(s, step);
      StepMovesEnds(s, step);
      StaysCarriedOpen(s, step, r.states[k]);
    }
  }

  /** A finished action and its log entry never change again. */
  lemma FinishedStays(s: State, step: Step, t: State, x: nat)
    requires CarriedOpen(s) && Evidenced(s) && x < |s.actions| && !Unresolved(s.actions[x].status)
    requires RowsEvolve(s, t) && LogsEvolve(s, t)
    ensures t.actions[x] == s.actions[x] && (Agrees(t, x) <==> Agrees(s, x)) && EndsCleanly(s, step, x)
  {
  }

  /** An action that stays open has not been ended. */
  lemma OpenStays(s: State, step: Step, t: State, x: nat)
    requires x < |s.actions| && Unresolved(s.actions[x].status)
    requires RowsEvolve(s, t) && EndsEvolve(s, step, t) && Unresolved(t.actions[x].status)
    ensures EndsCleanly(s, step, x)
  {
  }

  /** At its end an action agrees with the log exactly if it was ended cleanly. */
  lemma EndAgreesIff(s: State, step: Step, t: State, x: nat)
    requires x < |s.actions| && Unresolved(s.actions[x].status) && s.actions[x].evidence.None?
    requires RowsEvolve(s, t) && EndsEvolve(s, step, t) && !Unresolved(t.actions[x].status)
    ensures Agrees(t, x) <==> EndsCleanly(s, step, x)
  {
  }

  // -------------------------------------------------------------------- theorem

  /** Every step so far that concerned the action left it open or ended it cleanly. */
  ghost predicate CleanSoFar(r: Run, k: nat, x: nat) {
    |r.states| == |r.steps| + 1 && k <= |r.steps|
    && forall m | 0 <= m < k :: x < |r.states[m].actions| ==> EndsCleanly(r.states[m], r.steps[m], x)
  }

  lemma CleanNext(r: Run, k: nat, x: nat)
    requires IsRun(r) && 0 < k < |r.states|
    ensures CleanSoFar(r, k, x) <==>
              CleanSoFar(r, k - 1, x)
              && (x < |r.states[k - 1].actions| ==> EndsCleanly(r.states[k - 1], r.steps[k - 1], x))
  {
    hide Enabled, Do, EndsCleanly;
  }

  /** Before it is created nothing concerns an action. */
  lemma {:induction false} CleanBeforeCreation(r: Run, k: nat, x: nat)
    requires IsRun(r) && k < |r.states| && x >= |r.states[k].actions|
    ensures CleanSoFar(r, k, x)
    decreases k
  {
    hide Enabled, Do, EndsCleanly;
    if k > 0 {
      StepMovesRows(r.states[k - 1], r.steps[k - 1]);
      CleanBeforeCreation(r, k - 1, x);
      CleanNext(r, k, x);
    }
  }

  /**
    Exactly when log and action agree, for every finished action of every run with any number of workers and
    reconcilers: if and only if the step that ended the action found in the log what it recorded.
  */
  lemma {:induction false} FinishedAgreesIff(r: Run, k: nat, x: nat)
    requires IsRun(r) && k < |r.states| && x < |r.states[k].actions|
    ensures Unresolved(r.states[k].actions[x].status) ==> CleanSoFar(r, k, x) && r.states[k].actions[x].evidence.None?
    ensures !Unresolved(r.states[k].actions[x].status) ==> (Agrees(r.states[k], x) <==> CleanSoFar(r, k, x))
    decreases k
  {
    hide Enabled, Do, Inv, Agrees, EndsCleanly, CarriedOpen, RowsEvolve, LogsEvolve, EndsEvolve, CleanSoFar;
    var s, step, t := r.states[k - 1], r.steps[k - 1], r.states[k];
    InvAlways(r, k - 1);
    AlwaysCarriedOpen(r, k - 1);
    StepMovesRows(s, step);
    StepMovesLogs(s, step);
    StepMovesEnds(s, step);
    CleanNext(r, k, x);
    if x < |s.actions| {
      FinishedAgreesIff(r, k - 1, x);
      LastStep(s, step, t, x);
    } else {
      CleanBeforeCreation(r, k - 1, x);
      FreshAgrees(s, step, t, x);
    }
  }

  lemma LastStep(s: State, step: Step, t: State, x: nat)
    requires Inv(s) && CarriedOpen(s) && x < |s.actions|
    requires RowsEvolve(s, t) && LogsEvolve(s, t) && EndsEvolve(s, step, t)
    requires Unresolved(s.actions[x].status) ==> s.actions[x].evidence.None?
    ensures !Unresolved(s.actions[x].status) ==>
              !Unresolved(t.actions[x].status) && (Agrees(t, x) <==> Agrees(s, x)) && EndsCleanly(s, step, x)
    ensures Unresolved(s.actions[x].status) && Unresolved(t.actions[x].status) ==>
              EndsCleanly(s, step, x) && t.actions[x].evidence.None?
    ensures Unresolved(s.actions[x].status) && !Unresolved(t.actions[x].status) ==>
              (Agrees(t, x) <==> EndsCleanly(s, step, x))
  {
    assert Evidenced(s);
    hide Inv, Agrees, EndsCleanly;
    if !Unresolved(s.actions[x].status) {
      FinishedStays(s, step, t, x);
    } else if Unresolved(t.actions[x].status) {
      OpenStays(s, step, t, x);
    } else {
      EndAgreesIff(s, step, t, x);
    }
  }

  /** A claim that is refused for the cap is finished at once, and has no log entry. */
  lemma FreshAgrees(s: State, step: Step, t: State, x: nat)
    requires Inv(s) && |s.actions| <= x < |t.actions| && RowsEvolve(s, t) && EndsEvolve(s, step, t)
    ensures t.actions[x].evidence.None? && (!Unresolved(t.actions[x].status) ==> Agrees(t, x))
  {
  }

  // ------------------------------------------------------------- who wrote the log

  /** A log entry is written by a reconciler for what it saw, or once by the worker for what it got. */
  ghost predicate EntriesBy(s: State, step: Step, t: State) {
    && (forall i | i in s.audits :: i in t.audits)
    && (forall i | i in t.audits && (i !in s.audits || t.audits[i] != s.audits[i]) ::
          || (step.AuditReconciled? && LogsWhatItSaw(s, step.c, t, i))
          || (step.RecordAudit? && i !in s.audits && PhaseOf(s, step.w).Released? && PhaseOf(s, step.w).id == i
              && t.audits[i].status == Recorded(PhaseOf(s, step.w).outcome)
              && PhaseOf(t, step.w) == Audited(i, PhaseOf(s, step.w).outcome)))
    && (forall w: nat | PhaseOf(t, w).Audited? && PhaseOf(t, w) != PhaseOf(s, w) ::
          && step == RecordAudit(w) && PhaseOf(t, w).id !in s.audits
          && PhaseOf(t, w).id in t.audits && t.audits[PhaseOf(t, w).id].status == Recorded(PhaseOf(t, w).outcome))
    && (forall w: nat | PhaseOf(s, w).Audited? :: PhaseOf(t, w) == PhaseOf(s, w) || PhaseOf(t, w).Idle?)
  }

  ghost predicate TurnsBy(s: State, step: Step, t: State) {
    forall c: nat | ReconcilerOf(t, c).AuditWritten? && ReconcilerOf(t, c) != ReconcilerOf(s, c) ::
      step == AuditReconciled(c) && LogsWhatItSaw(s, c, t, ReconcilerOf(t, c).id)
  }

  lemma OnlyTwoStepsLog(s: State, step: Step)
    requires Enabled(s, step) && !step.AuditReconciled? && !step.RecordAudit?
    ensures Do(s, step).audits == s.audits
  {
    hide GuardPasses, HasUnresolved, KeyTaken, ChargedOn;
  }

  lemma RecordLogs(s: State, w: nat, i: nat)
    requires Enabled(s, RecordAudit(w))
    ensures var t := Do(s, RecordAudit(w));
            && (i in s.audits ==> i in t.audits)
            && (i in t.audits && (i !in s.audits || t.audits[i] != s.audits[i]) ==>
                  i !in s.audits && PhaseOf(s, w).Released? && PhaseOf(s, w).id == i
                  && t.audits[i].status == Recorded(PhaseOf(s, w).outcome)
                  && PhaseOf(t, w) == Audited(i, PhaseOf(s, w).outcome))
  {
  }

  lemma UpsertLogs(s: State, c: nat, i: nat)
    requires Enabled(s, AuditReconciled(c))
    ensures var t := Do(s, AuditReconciled(c));
            && (i in s.audits ==> i in t.audits)
            && (i in t.audits && (i !in s.audits || t.audits[i] != s.audits[i]) ==> LogsWhatItSaw(s, c, t, i))
  {
  }

  lemma AuditedByRecording(s: State, step: Step, w: nat)
    requires Enabled(s, step) && PhaseOf(Do(s, step), w).Audited? && PhaseOf(Do(s, step), w) != PhaseOf(s, w)
    ensures var t := Do(s, step);
            && step == RecordAudit(w) && PhaseOf(t, w).id !in s.audits
            && PhaseOf(t, w).id in t.audits && t.audits[PhaseOf(t, w).id].status == Recorded(PhaseOf(t, w).outcome)
  {
    hide GuardPasses, HasUnresolved, KeyTaken, ChargedOn;
  }

  lemma AuditedThenDone(s: State, step: Step, w: nat)
    requires Enabled(s, step) && PhaseOf(s, w).Audited?
    ensures PhaseOf(Do(s, step), w) == PhaseOf(s, w) || PhaseOf(Do(s, step), w).Idle?
  {
    hide GuardPasses, HasUnresolved, KeyTaken, ChargedOn;
  }

  lemma StepWritesEntries(s: State, step: Step)
    requires Enabled(s, step)
    ensures EntriesBy(s, step, Do(s, step))
  {
    hide Enabled, Do, LogsWhatItSaw;
    forall w: nat | PhaseOf(Do(s, step), w).Audited? && PhaseOf(Do(s, step), w) != PhaseOf(s, w)
      ensures var t := Do(s, step);
              && step == RecordAudit(w) && PhaseOf(t, w).id !in s.audits
              && PhaseOf(t, w).id in t.audits && t.audits[PhaseOf(t, w).id].status == Recorded(PhaseOf(t, w).outcome)
    {
      AuditedByRecording(s, step, w);
    }
    forall w: nat | PhaseOf(s, w).Audited?
      ensures PhaseOf(Do(s, step), w) == PhaseOf(s, w) || PhaseOf(Do(s, step), w).Idle?
    {
      AuditedThenDone(s, step, w);
    }
    if step.AuditReconciled? {
      forall i: nat { UpsertLogs(s, step.c, i); }
    } else if step.RecordAudit? {
      forall i: nat { RecordLogs(s, step.w, i); }
    } else {
      OnlyTwoStepsLog(s, step);
    }
  }

  lemma StepTakesTurns(s: State, step: Step)
    requires Enabled(s, step)
    ensures TurnsBy(s, step, Do(s, step))
  {
    hide GuardPasses, HasUnresolved, KeyTaken, ChargedOn;
  }

  /** Step `m` is a reconciler's update of the log entry of action `x`. */
  ghost predicate LogsAt(r: Run, m: nat, x: nat) {
    m < |r.steps| && m + 1 < |r.states| && r.steps[m].AuditReconciled?
    && LogsWhatItSaw(r.states[m], r.steps[m].c, r.states[m + 1], x)
  }

  /** The entry that step `m` left still stands in state `k`. */
  ghost predicate Stands(r: Run, m: nat, k: nat, x: nat) {
    m + 1 <= k < |r.states| && forall n | m < n <= k ::
      x in r.states[n].audits && x in r.states[k].audits && r.states[n].audits[x] == r.states[k].audits[x]
  }

  /** The entry that stands in state `k` was written by a reconciler. */
  ghost predicate ReconcilerLogged(r: Run, k: nat, x: nat) {
    exists m: nat :: m < k && LogsAt(r, m, x) && Stands(r, m, k, x)
  }

  lemma StillLogged(r: Run, k: nat, x: nat)
    requires 0 < k < |r.states| && ReconcilerLogged(r, k - 1, x)
    requires x in r.states[k].audits && x in r.states[k - 1].audits && r.states[k].audits[x] == r.states[k - 1].audits[x]
    ensures ReconcilerLogged(r, k, x)
  {
    var m: nat :| m < k - 1 && LogsAt(r, m, x) && Stands(r, m, k - 1, x);
    assert Stands(r, m, k, x);
  }

  lemma JustLogged(r: Run, k: nat, x: nat)
    requires 0 < k < |r.states| && LogsAt(r, k - 1, x)
    ensures ReconcilerLogged(r, k, x)
  {
    assert Stands(r, k - 1, k, x);
  }

  /**
    What stands in the log of an action that is not finished: nothing before its worker logs, then what the
    worker logged, unless a reconciler wrote it.
  */
  ghost predicate OpenEntry(r: Run, k: nat, x: nat)
    requires k < |r.states|
  {
    var s := r.states[k];
    && (forall w: nat | Carried(PhaseOf(s, w)) == Some(x) ::
          if PhaseOf(s, w).Audited?
          then x in s.audits && (s.audits[x].status == Recorded(PhaseOf(s, w).outcome) || ReconcilerLogged(r, k, x))
          else x !in s.audits || ReconcilerLogged(r, k, x))
    && (forall c: nat | ReconcilerOf(s, c).AuditWritten? && ReconcilerOf(s, c).id == x :: ReconcilerLogged(r, k, x))
  }

  /** A change of the entry at the last step is a reconciler's, unless it is the worker's first entry. */
  lemma EntryStays(r: Run, k: nat, x: nat)
    requires IsRun(r) && 0 < k < |r.states| && x in r.states[k - 1].audits
    ensures x in r.states[k].audits
    ensures r.states[k].audits[x] == r.states[k - 1].audits[x] || ReconcilerLogged(r, k, x)
    ensures ReconcilerLogged(r, k - 1, x) ==> ReconcilerLogged(r, k, x)
  {
    hide Enabled, Do, ReconcilerLogged;
    StepWritesEntries(r.states[k - 1], r.steps[k - 1]);
    if r.states[k].audits[x] != r.states[k - 1].audits[x] {
      JustLogged(r, k, x);
    } else if ReconcilerLogged(r, k - 1, x) {
      StillLogged(r, k, x);
    }
  }

  lemma {:induction false} EntryOfOpenAction(r: Run, k: nat, x: nat)
    requires IsRun(r) && k < |r.states|
    ensures OpenEntry(r, k, x)
    decreases k
  {
    hide Enabled, Do, ReconcilerLogged;
    if k > 0 {
      var s, step, t := r.states[k - 1], r.steps[k - 1], r.states[k];
      EntryOfOpenAction(r, k - 1, x);
      InvAlways(r, k - 1);
      StepMovesRows(s, step);
      StepMovesWorkers(s, step);
      StepWritesEntries(s, step);
      StepTakesTurns(s, step);
      if x in s.audits {
        EntryStays(r, k, x);
      }
      CarriersKeepEntries(r, k, x);
      ReconcilersKeepEntries(r, k, x);
    }
  }

  lemma CarriersKeepEntries(r: Run, k: nat, x: nat)
    requires IsRun(r) && 0 < k < |r.states| && OpenEntry(r, k - 1, x) && Inv(r.states[k - 1])
    requires var s, step, t := r.states[k - 1], r.steps[k - 1], r.states[k];
             RowsEvolve(s, t) && WorkersEvolve(s, step, t) && EntriesBy(s, step, t)
    requires x in r.states[k - 1].audits ==>
               && x in r.states[k].audits
               && (r.states[k].audits[x] == r.states[k - 1].audits[x] || ReconcilerLogged(r, k, x))
               && (ReconcilerLogged(r, k - 1, x) ==> ReconcilerLogged(r, k, x))
    ensures forall w: nat | Carried(PhaseOf(r.states[k], w)) == Some(x) ::
              if PhaseOf(r.states[k], w).Audited?
              then x in r.states[k].audits
                   && (r.states[k].audits[x].status == Recorded(PhaseOf(r.states[k], w).outcome) || ReconcilerLogged(r, k, x))
              else x !in r.states[k].audits || ReconcilerLogged(r, k, x)
  {
    hide Enabled, Do, ReconcilerLogged;
    var s, step, t := r.states[k - 1], r.steps[k - 1], r.states[k];
    assert CarriersDistinct(s) && LogsInBounds(s);
    forall w: nat | Carried(PhaseOf(t, w)) == Some(x)
      ensures if PhaseOf(t, w).Audited?
              then x in t.audits && (t.audits[x].status == Recorded(PhaseOf(t, w).outcome) || ReconcilerLogged(r, k, x))
              else x !in t.audits || ReconcilerLogged(r, k, x)
    {
      if x !in s.audits && x in t.audits && step.AuditReconciled? {
        JustLogged(r, k, x);
      }
    }
  }

  lemma ReconcilersKeepEntries(r: Run, k: nat, x: nat)
    requires IsRun(r) && 0 < k < |r.states| && OpenEntry(r, k - 1, x) && Inv(r.states[k - 1])
    requires TurnsBy(r.states[k - 1], r.steps[k - 1], r.states[k])
    requires x in r.states[k - 1].audits ==> (ReconcilerLogged(r, k - 1, x) ==> ReconcilerLogged(r, k, x))
    ensures forall c: nat | ReconcilerOf(r.states[k], c).AuditWritten? && ReconcilerOf(r.states[k], c).id == x ::
              ReconcilerLogged(r, k, x)
  {
    hide Enabled, Do, ReconcilerLogged;
    var s, step, t := r.states[k - 1], r.steps[k - 1], r.states[k];
    assert ReconcilersSupported(s);
    forall c: nat | ReconcilerOf(t, c).AuditWritten? && ReconcilerOf(t, c).id == x ensures ReconcilerLogged(r, k, x) {
      if ReconcilerOf(t, c) != ReconcilerOf(s, c) {
        JustLogged(r, k, x);
      }
    }
  }

  /**
    An ending is not clean exactly if a reconciler has logged another outcome for the action and its entry
    still stands when the action is ended.
  */
  lemma UncleanIff(r: Run, k: nat, x: nat)
    requires IsRun(r) && k < |r.steps| && x < |r.states[k].actions|
    ensures !EndsCleanly(r.states[k], r.steps[k], x) <==>
              && EndingStatus(r.states[k], r.steps[k], x).Some?
              && exists m: nat :: m < k && LogsAt(r, m, x) && Stands(r, m, k, x)
                   && r.states[m + 1].audits[x].status != EndingStatus(r.states[k], r.steps[k], x).value
  {
    hide Enabled, Do;
    var s, step := r.states[k], r.steps[k];
    EntryOfOpenAction(r, k, x);
    if !EndsCleanly(s, step, x) {
      EndsWithEntry(r, k, x);
      var m: nat :| m < k && LogsAt(r, m, x) && Stands(r, m, k, x);
      assert r.states[m + 1].audits[x] == s.audits[x];
    }
  }

  lemma BlockedBeforeCall(s: State, w: nat)
    requires Enabled(s, BlockClaim(w))
    ensures !PhaseOf(s, w).Audited?
  {
  }

  lemma EndsWithEntry(r: Run, k: nat, x: nat)
    requires IsRun(r) && k < |r.steps| && x < |r.states[k].actions| && OpenEntry(r, k, x)
    requires !EndsCleanly(r.states[k], r.steps[k], x)
    ensures ReconcilerLogged(r, k, x) && x in r.states[k].audits
  {
    hide Enabled, Do, ReconcilerLogged;
    InvAlways(r, k);
    assert ReconcilersSupported(r.states[k]);
    if r.steps[k].BlockClaim? {
      BlockedBeforeCall(r.states[k], r.steps[k].w);
    }
  }

  /** The log entry of a reconciled action shows its status exactly if the action was ended cleanly. */
  lemma ReconciledLogAgreesIff(r: Run, k: nat, x: nat)
    requires IsRun(r) && k < |r.states| && x < |r.states[k].actions| && r.states[k].actions[x].evidence.Some?
    ensures x in r.states[k].audits
    ensures r.states[k].audits[x].status == r.states[k].actions[x].status <==> CleanSoFar(r, k, x)
  {
    hide Enabled, Do, CleanSoFar;
    InvAlways(r, k);
    assert ResolutionsSupported(r.states[k]);
    FinishedAgreesIff(r, k, x);
  }

  // ------------------------------------------------------------------ one reconciler

  /** The reconciler that takes a step, if one does. */
  function ReconcilerActor(step: Step): Option<nat> {
    match step
    case Observe(c, _) => Some(c)
    case AuditReconciled(c) => Some(c)
    case Resolve(c) => Some(c)
    case StopReconciler(c) => Some(c)
    case _ => None
  }

  ghost predicate OneReconciler(r: Run, c: nat) {
    forall k | 0 <= k < |r.steps| :: ReconcilerActor(r.steps[k]).Some? ==> ReconcilerActor(r.steps[k]) == Some(c)
  }

  /** After its first update the log shows what the reconciler saw. */
  ghost predicate OwnEntry(s: State, c: nat) {
    ReconcilerOf(s, c).AuditWritten? ==>
      var q := ReconcilerOf(s, c);
      q.id < |s.actions| && q.id in s.audits
      && s.audits[q.id].status == ReconciledStatus(s.actions[q.id].plan, q.obs.bid)
  }

  lemma OwnEntryStays(s: State, step: Step, t: State, c: nat)
    requires OwnEntry(s, c) && (ReconcilerActor(step).Some? ==> ReconcilerActor(step) == Some(c))
    requires RowsEvolve(s, t) && EntriesBy(s, step, t) && TurnsBy(s, step, t)
    ensures OwnEntry(t, c)
  {
    if ReconcilerOf(t, c).AuditWritten? {
      var x := ReconcilerOf(t, c).id;
      assert x < |s.actions| && SameClaim(s.actions[x], t.actions[x]);
    }
  }

  lemma {:induction false} AlwaysOwnEntry(r: Run, c: nat, k: nat)
    requires IsRun(r) && OneReconciler(r, c) && k < |r.states|
    ensures OwnEntry(r.states[k], c)
  {
    hide Enabled, Do;
    if k > 0 {
      var s, step := r.states[k - 1], r.steps[k - 1];
      AlwaysOwnEntry(r, c, k - 1);
      StepMovesRows(s, step);
      StepWritesEntries(s, step);
      StepTakesTurns(s, step);
      OwnEntryStays(s, step, r.states[k], c);
    }
  }

  /** A lone reconciler resolves every action cleanly; then only a worker can end one otherwise. */
  lemma LoneReconcilerResolvesCleanly(r: Run, c: nat, k: nat, x: nat)
    requires IsRun(r) && OneReconciler(r, c) && k < |r.steps| && r.steps[k].Resolve? && x < |r.states[k].actions|
    ensures EndsCleanly(r.states[k], r.steps[k], x)
  {
    hide Enabled, Do;
    AlwaysOwnEntry(r, c, k);
    assert ReconcilerActor(r.steps[k]) == Some(c);
  }

  // --------------------------------------------------------------- one task at a time

  ghost predicate Exclusive(s: State, step: Step) {
    && (Actor(step).Some? ==>
          && (forall v: nat | Some(v) != Actor(step) :: PhaseOf(s, v).Idle?)
          && (forall c: nat :: ReconcilerOf(s, c).Waiting?))
    && (ReconcilerActor(step).Some? ==>
          && (forall v: nat :: PhaseOf(s, v).Idle?)
          && (forall c: nat | Some(c) != ReconcilerActor(step) :: ReconcilerOf(s, c).Waiting?))
  }

  /** Automation and reconciliation are tasks of one server that runs one task at a time. */
  ghost predicate Serial(r: Run) {
    |r.states| == |r.steps| + 1 && forall k | 0 <= k < |r.steps| :: Exclusive(r.states[k], r.steps[k])
  }

  /** The worker finds in the log entry of its action what its own work has put there. */
  ghost predicate OwnLog(s: State, w: nat) {
    Carried(PhaseOf(s, w)).Some? ==>
      var x := Carried(PhaseOf(s, w)).value;
      if PhaseOf(s, w).Audited? then x in s.audits && s.audits[x].status == Recorded(PhaseOf(s, w).outcome)
      else x !in s.audits
  }

  /** And so does whoever is at work. */
  ghost predicate OwnEntries(s: State) {
    (forall c: nat :: OwnEntry(s, c)) && (forall w: nat :: OwnLog(s, w))
  }

  lemma ReconcilerKeepsEntry(s: State, step: Step, t: State, c: nat)
    requires OwnEntry(s, c) && Exclusive(s, step)
    requires RowsEvolve(s, t) && EntriesBy(s, step, t) && TurnsBy(s, step, t)
    ensures OwnEntry(t, c)
  {
    if ReconcilerOf(t, c).AuditWritten? {
      var x := ReconcilerOf(t, c).id;
      assert x < |s.actions| && SameClaim(s.actions[x], t.actions[x]);
    }
  }

  lemma WorkerKeepsLog(s: State, step: Step, t: State, w: nat)
    requires OwnLog(s, w) && Exclusive(s, step) && CarriersDistinct(s) && LogsInBounds(s)
    requires WorkersEvolve(s, step, t) && EntriesBy(s, step, t)
    ensures OwnLog(t, w)
  {
    hide Exclusive;
    if Actor(step) != Some(w) && Carried(PhaseOf(s, w)).Some? {
      StandsAside(s, step, w);
    }
  }

  lemma StandsAside(s: State, step: Step, w: nat)
    requires Exclusive(s, step) && Actor(step) != Some(w) && Carried(PhaseOf(s, w)).Some?
    ensures Actor(step).None? && ReconcilerActor(step).None?
  {
  }

  lemma OwnEntriesStay(s: State, step: Step, t: State)
    requires OwnEntries(s) && Exclusive(s, step) && CarriersDistinct(s) && LogsInBounds(s)
    requires RowsEvolve(s, t) && WorkersEvolve(s, step, t) && EntriesBy(s, step, t) && TurnsBy(s, step, t)
    ensures OwnEntries(t)
  {
    hide OwnEntry, OwnLog, Exclusive, RowsEvolve, WorkersEvolve, EntriesBy, TurnsBy, CarriersDistinct, LogsInBounds;
    forall c: nat ensures OwnEntry(t, c) {
      assert OwnEntry(s, c);
      ReconcilerKeepsEntry(s, step, t, c);
    }
    forall w: nat ensures OwnLog(t, w) {
      assert OwnLog(s, w);
      WorkerKeepsLog(s, step, t, w);
    }
  }

  lemma {:induction false} AlwaysOwnEntries(r: Run, k: nat)
    requires IsRun(r) && Serial(r) && k < |r.states|
    ensures OwnEntries(r.states[k])
  {
    hide Enabled, Do;
    if k > 0 {
      var s, step := r.states[k - 1], r.steps[k - 1];
      AlwaysOwnEntries(r, k - 1);
      InvAlways(r, k - 1);
      StepMovesRows(s, step);
      StepMovesWorkers(s, step);
      StepWritesEntries(s, step);
      StepTakesTurns(s, step);
      assert CarriersDistinct(s) && LogsInBounds(s);
      hide Inv;
      OwnEntriesStay(s, step, r.states[k]);
    }
  }

  /** With one task at a time log and action agree about every finished action. */
  lemma SerialRunsAreClean(r: Run, k: nat, x: nat)
    requires IsRun(r) && Serial(r) && k < |r.states| && x < |r.states[k].actions|
    ensures CleanSoFar(r, k, x)
    ensures !Unresolved(r.states[k].actions[x].status) ==> Agrees(r.states[k], x)
  {
    hide Enabled, Do, Agrees;
    forall m | 0 <= m < k && x < |r.states[m].actions| ensures EndsCleanly(r.states[m], r.steps[m], x) {
      AlwaysOwnEntries(r, m);
      var s, step := r.states[m], r.steps[m];
      if step.Resolve? {
        assert OwnEntry(s, step.c);
      } else if step.Complete? {
        assert OwnLog(s, step.w);
      } else if step.BlockClaim? {
        assert OwnLog(s, step.w);
        BlockedBeforeCall(s, step.w);
      }
    }
    FinishedAgreesIff(r, k, x);
  }
}
