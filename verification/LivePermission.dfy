/**
  The rollout of bindings and the write protocol as one machine: a worker evaluates a binding in a session
  that takes its permission to write once, at the beginning, and sends nothing without it. Several workers
  may evaluate one binding at the same time.
*/
module LivePermission {
  import opened Numeric
  import opened Strategy
  import opened BidEngine
  import opened BidEngineSafety
  import opened WriteProtocol
  import opened WriteSafety
  import Rollout

  // ------------------------------------------------------------------------ data

  /** What a strategy is bound to: a campaign, or one product of it. */
  datatype Binding = Binding(strategy: nat, campaign: nat, product: Option<nat>)

  predicate Concerns(b: Binding, p: Plan) {
    p.strategy == b.strategy && p.target.campaign == b.campaign && p.target.product == b.product
  }

  /** One evaluation under way: the row it began with, and what else decides its permission. */
  datatype Session = Session(binding: Binding, before: Rollout.Row, workspaceLive: bool, recorded: bool)

  function EvaluationOf(x: Session, during: seq<Rollout.Update>, ending: Rollout.Ending): Rollout.Evaluation {
    Rollout.Evaluation(x.workspaceLive, x.recorded, during, ending)
  }

  predicate Permitted(x: Session) {
    Rollout.Applies(x.before, EvaluationOf(x, [], Rollout.Decision))
  }

  datatype World = World(bids: State, rows: map<Binding, Rollout.Row>, sessions: map<nat, Session>)

  /** A binding without a row gets one that is validating. */
  function RowOf(x: World, b: Binding): Rollout.Row {
    if b in x.rows then x.rows[b] else Rollout.Row(Rollout.ShadowValidating, Rollout.WantsLive)
  }

  datatype Happening =
    | Begins(w: nat, binding: Binding, workspaceLive: bool, recorded: bool)
    | Ends(w: nat, ending: Rollout.Ending)
    | Crashes(w: nat)
    | Operates(binding: Binding, update: Rollout.Update)
    | Steps(step: Step)

  /** A worker decides about the binding of its session, and goes past the action guard only with permission. */
  ghost predicate InSession(x: World, step: Step) {
    Actor(step).Some? ==>
      && Actor(step).value in x.sessions
      && var session := x.sessions[Actor(step).value];
         && (step.Decide? ==> step.strategy == session.binding.strategy && step.target.campaign == session.binding.campaign
                              && step.target.product == session.binding.product)
         && (step.CheckUnresolved? ==> Permitted(session))
  }

  ghost predicate CanHappen(x: World, h: Happening) {
    match h
    case Begins(w, _, _, _) => w !in x.sessions
    case Ends(w, _) => w in x.sessions && Carried(PhaseOf(x.bids, w)).None?
    case Crashes(_) => true
    case Operates(_, _) => true
    case Steps(step) => Enabled(x.bids, step) && !step.Stop? && InSession(x, step)
  }

  /** What the end of an evaluation does to its binding's row. */
  function AfterEnding(row: Rollout.Row, session: Session, ending: Rollout.Ending): Rollout.Row {
    var e := EvaluationOf(session, [], ending);
    if Rollout.Marks(session.before, e) then Rollout.SystemState(row, Rollout.Blocked)
    else if Rollout.Promotes(session.before, e) then Rollout.SystemState(row, Rollout.Live)
    else row
  }

  /** The step of the write protocol that happens at the same time; none is a tick of no seconds. */
  function ProtocolStep(h: Happening): Step {
    match h
    case Begins(_, _, _, _) => Tick(0)
    case Ends(w, _) => Stop(w)
    case Crashes(w) => Stop(w)
    case Operates(_, _) => Tick(0)
    case Steps(step) => step
  }

  function RowsAfter(x: World, h: Happening): map<Binding, Rollout.Row> {
    match h
    case Begins(_, b, _, _) => x.rows[b := Rollout.Begun(RowOf(x, b))]
    case Ends(w, ending) =>
      if w in x.sessions
      then x.rows[x.sessions[w].binding := AfterEnding(RowOf(x, x.sessions[w].binding), x.sessions[w], ending)]
      else x.rows
    case Crashes(_) => x.rows
    case Operates(b, u) => x.rows[b := Rollout.Updated(RowOf(x, b), u)]
    case Steps(_) => x.rows
  }

  function SessionsAfter(x: World, h: Happening): map<nat, Session> {
    match h
    case Begins(w, b, live, recorded) => x.sessions[w := Session(b, RowOf(x, b), live, recorded)]
    case Ends(w, _) => x.sessions - {w}
    case Crashes(w) => x.sessions - {w}
    case Operates(_, _) => x.sessions
    case Steps(_) => x.sessions
  }

  lemma ProtocolFollows(x: World, h: Happening)
    requires CanHappen(x, h)
    ensures Enabled(x.bids, ProtocolStep(h))
  {
  }

  ghost function Result(x: World, h: Happening): World
    requires CanHappen(x, h)
  {
    ProtocolFollows(x, h);
    World(Do(x.bids, ProtocolStep(h)), RowsAfter(x, h), SessionsAfter(x, h))
  }

  datatype History = History(worlds: seq<World>, happenings: seq<Happening>)

  /** Whatever the rows are at first, nobody is at work. */
  ghost predicate IsHistory(h: History) {
    && |h.worlds| == |h.happenings| + 1
    && Initial(h.worlds[0].bids) && h.worlds[0].sessions == map[]
    && forall i | 0 <= i < |h.happenings| ::
         CanHappen(h.worlds[i], h.happenings[i]) && h.worlds[i + 1] == Result(h.worlds[i], h.happenings[i])
  }

  // ------------------------------------------------------------ its write protocol

  function ProtocolRun(h: History): Run {
    Run(seq(|h.worlds|, i requires 0 <= i < |h.worlds| => h.worlds[i].bids),
        seq(|h.happenings|, i requires 0 <= i < |h.happenings| => ProtocolStep(h.happenings[i])))
  }

  /** Seen from the bids, a history is a run, so all that is proved about runs holds for it. */
  lemma HistoryIsRun(h: History)
    requires IsHistory(h)
    ensures IsRun(ProtocolRun(h))
  {
    hide Enabled, Do, CanHappen;
    var r := ProtocolRun(h);
    forall i | 0 <= i < |r.steps| ensures Enabled(r.states[i], r.steps[i]) && r.states[i + 1] == Do(r.states[i], r.steps[i]) {
      assert CanHappen(h.worlds[i], h.happenings[i]) && h.worlds[i + 1] == Result(h.worlds[i], h.happenings[i]);
      ProtocolFollows(h.worlds[i], h.happenings[i]);
    }
  }

  // ------------------------------------------------------------------ a worker's plan

  /** The plan a worker pursues, before and after its claim. */
  function PlanOf(s: State, w: nat): Option<Plan> {
    var p := PhaseOf(s, w);
    if Planning(p) then Some(p.plan)
    else if Carried(p).Some? && Carried(p).value < |s.actions| then Some(s.actions[Carried(p).value].plan)
    else None
  }

  /** Past the point where only an evaluation with permission goes on. */
  predicate OnWritePath(p: Phase) {
    p.Clear? || p.Ready? || Carried(p).Some?
  }

  /**
    The step decides the plan: it is the engine's decision for a synchronised bid of the target, with the
    strategy's cooldown and daily limit, or two hours and three changes where it sets none.
  */
  ghost predicate Decides(s: State, step: Step, w: nat, p: Plan) {
    && step.Decide? && step.w == w && p.strategy == step.strategy && p.target == step.target
    && WellFormed(step.params, step.ctx)
    && CalculateBid(step.kind, step.params, step.ctx) == Some(BidEngine.Decision(p.oldBid, p.newBid))
    && p.target in s.observed && p.observedAt == s.observed[p.target].at && p.oldBid == s.observed[p.target].bid
    && p.cooldownMinutes == (if step.params.cooldownMinutes == 0 then 120 else step.params.cooldownMinutes)
    && p.maxChangesPerDay == (if step.params.maxChangesPerDay == 0 then 3 else step.params.maxChangesPerDay)
  }

  lemma DecideMakesPlan(s: State, step: Step)
    requires Enabled(s, step) && step.Decide?
    ensures PhaseOf(Do(s, step), step.w).Decided? && Decides(s, step, step.w, PhaseOf(Do(s, step), step.w).plan)
  {
    DecisionChangesBid(step.kind, step.params, step.ctx);
  }

  lemma EntersWritePath(s: State, step: Step, w: nat)
    requires Enabled(s, step) && OnWritePath(PhaseOf(Do(s, step), w))
    ensures OnWritePath(PhaseOf(s, w)) || step == CheckUnresolved(w)
  {
    hide GuardPasses, HasUnresolved, KeyTaken, ChargedOn;
  }

  /** A worker keeps its plan until it drops it or decides anew. */
  lemma StepKeepsPlan(s: State, step: Step, w: nat)
    requires Enabled(s, step) && CarriersDistinct(s)
    ensures var t := Do(s, step);
            PlanOf(t, w).Some? ==>
              || PlanOf(t, w) == PlanOf(s, w)
              || (PlanOf(s, w).None? && Decides(s, step, w, PlanOf(t, w).value))
  {
    hide Enabled, Do, Decides, FreshClaim;
    StepMovesRows(s, step);
    StepMovesWorkers(s, step);
    StepMovesPlans(s, step);
    if step.Decide? {
      DecideMakesPlan(s, step);
      DecidesWhenIdle(s, step);
    }
    if Actor(step) == Some(w) {
      OwnPlanKept(s, step, Do(s, step), w);
    }
  }

  lemma OwnPlanKept(s: State, step: Step, t: State, w: nat)
    requires CarriersDistinct(s) && Actor(step) == Some(w)
    requires RowsEvolve(s, t) && WorkersEvolve(s, step, t) && PlansEvolve(s, step, t)
    requires step.Decide? ==> PhaseOf(t, w).Decided?
    ensures PlanOf(t, w).Some? && !step.Decide? ==> PlanOf(t, w) == PlanOf(s, w)
  {
    hide FreshClaim;
  }

  lemma DecidesWhenIdle(s: State, step: Step)
    requires Enabled(s, step) && step.Decide?
    ensures PhaseOf(s, step.w).Idle?
  {
  }

  /** Whatever a worker pursues goes back to a decision of the engine that it has made itself. */
  lemma {:induction false} PlanWasDecided(r: Run, k: nat, w: nat) returns (j: nat)
    requires IsRun(r) && k < |r.states| && PlanOf(r.states[k], w).Some?
    ensures j < k && Decides(r.states[j], r.steps[j], w, PlanOf(r.states[k], w).value)
    ensures forall m | j < m <= k :: PlanOf(r.states[m], w) == PlanOf(r.states[k], w)
  {
    hide Enabled, Do, Decides, PlanOf;
    NoPlanAtFirst(r, w);
    InvAlways(r, k - 1);
    assert CarriersDistinct(r.states[k - 1]);
    StepKeepsPlan(r.states[k - 1], r.steps[k - 1], w);
    if PlanOf(r.states[k], w) == PlanOf(r.states[k - 1], w) {
      j := PlanWasDecided(r, k - 1, w);
    } else {
      j := k - 1;
    }
  }

  lemma NoPlanAtFirst(r: Run, w: nat)
    requires IsRun(r)
    ensures PlanOf(r.states[0], w).None?
  {
    hide Enabled, Do;
  }

  lemma CallHasPlan(r: Run, k: nat)
    requires IsRun(r) && k < |r.steps| && r.steps[k].Call?
    ensures PlanOf(r.states[k], r.steps[k].w).Some? && PhaseOf(r.states[k], r.steps[k].w).Leased?
    ensures OnWritePath(PhaseOf(r.states[k], r.steps[k].w))
  {
    CallIsLeased(r.states[k], r.steps[k]);
    InvAlways(r, k);
    assert CarriersDistinct(r.states[k]);
    hide Enabled, Do;
  }

  lemma CallIsLeased(s: State, step: Step)
    requires Enabled(s, step) && step.Call?
    ensures PhaseOf(s, step.w).Leased?
  {
  }

  /**
    So every call to the marketplace sends what the engine decided earlier for a synchronised bid, and keeps
    the engine's limits.
  */
  lemma CallsSendDecisions(r: Run, k: nat) returns (j: nat, p: Plan)
    requires IsRun(r) && k < |r.steps| && r.steps[k].Call?
    ensures var id := PhaseOf(r.states[k], r.steps[k].w).id; id < |r.states[k].actions| && p == r.states[k].actions[id].plan
    ensures j < k && Decides(r.states[j], r.steps[j], r.steps[k].w, p)
    ensures var m := Merged(r.steps[j].params);
            Bounded(m) && m.maxChangePercent > 0.0 ==>
              && m.minBid <= p.newBid <= m.maxBid
              && -MaxDelta(p.oldBid, m.maxChangePercent) <= p.newBid - p.oldBid <= MaxDelta(p.oldBid, m.maxChangePercent)
  {
    hide Enabled, Do;
    CallHasPlan(r, k);
    p := PlanOf(r.states[k], r.steps[k].w).value;
    j := PlanWasDecided(r, k, r.steps[k].w);
    var m := Merged(r.steps[j].params);
    if Bounded(m) && m.maxChangePercent > 0.0 {
      DecisionWithinLimits(r.steps[j].kind, r.steps[j].params, r.steps[j].ctx);
    }
  }

  // ------------------------------------------------------------- a worker's session

  /** A worker at work has a session, its plan concerns the session's binding, and the write path needs permission. */
  ghost predicate WorksInSession(x: World, w: nat) {
    && (!PhaseOf(x.bids, w).Idle? ==> w in x.sessions)
    && (w in x.sessions ==>
          && (PlanOf(x.bids, w).Some? ==> Concerns(x.sessions[w].binding, PlanOf(x.bids, w).value))
          && (OnWritePath(PhaseOf(x.bids, w)) ==> Permitted(x.sessions[w])))
  }

  lemma OthersKeepPhase(s: State, step: Step, w: nat)
    requires Enabled(s, step) && Actor(step) != Some(w)
    ensures PhaseOf(Do(s, step), w) == PhaseOf(s, w)
  {
    OthersStandStill(s, step);
  }

  lemma StopIsIdle(s: State, w: nat)
    ensures Enabled(s, Stop(w)) && PhaseOf(Do(s, Stop(w)), w).Idle?
  {
  }

  lemma StaysInSession(x: World, h: Happening, w: nat)
    requires CanHappen(x, h) && CarriersDistinct(x.bids) && WorksInSession(x, w)
    ensures WorksInSession(Result(x, h), w)
  {
    hide Enabled, Do, Decides, PlanOf, OnWritePath, Permitted, Concerns;
    ProtocolFollows(x, h);
    var step := ProtocolStep(h);
    var t := Do(x.bids, step);
    StepKeepsPlan(x.bids, step, w);
    IdleHasNoPlan(x.bids, w);
    IdleHasNoPlan(t, w);
    if Actor(step) != Some(w) {
      OthersKeepPhase(x.bids, step, w);
      AnothersStepDecidesNothing(x.bids, step, w);
    } else if step.Stop? {
      StopIsIdle(x.bids, w);
    } else {
      OwnStepInSession(x, step, w);
    }
  }

  lemma IdleHasNoPlan(s: State, w: nat)
    ensures PhaseOf(s, w).Idle? ==> PlanOf(s, w).None? && !OnWritePath(PhaseOf(s, w))
  {
  }

  lemma AnothersStepDecidesNothing(s: State, step: Step, w: nat)
    requires Actor(step) != Some(w)
    ensures forall p :: !Decides(s, step, w, p)
  {
  }

  lemma OwnStepInSession(x: World, step: Step, w: nat)
    requires Enabled(x.bids, step) && !step.Stop? && InSession(x, step) && Actor(step) == Some(w)
    requires CarriersDistinct(x.bids) && WorksInSession(x, w)
    ensures var t := Do(x.bids, step);
            && w in x.sessions
            && (PlanOf(t, w).Some? ==> Concerns(x.sessions[w].binding, PlanOf(t, w).value))
            && (OnWritePath(PhaseOf(t, w)) ==> Permitted(x.sessions[w]))
  {
    hide Enabled, Do, PlanOf, OnWritePath, Permitted;
    StepKeepsPlan(x.bids, step, w);
    if OnWritePath(PhaseOf(Do(x.bids, step), w)) {
      EntersWritePath(x.bids, step, w);
    }
  }

  lemma {:induction false} AlwaysInSession(h: History, k: nat, w: nat)
    requires IsHistory(h) && k < |h.worlds|
    ensures WorksInSession(h.worlds[k], w)
  {
    hide Enabled, Do, CanHappen, Result;
    if k == 0 {
      NobodyAtFirst(h, w);
    } else {
      AlwaysInSession(h, k - 1, w);
      HistoryIsRun(h);
      InvAlways(ProtocolRun(h), k - 1);
      assert ProtocolRun(h).states[k - 1] == h.worlds[k - 1].bids;
      assert CarriersDistinct(h.worlds[k - 1].bids);
      StaysInSession(h.worlds[k - 1], h.happenings[k - 1], w);
    }
  }

  lemma NobodyAtFirst(h: History, w: nat)
    requires IsHistory(h)
    ensures WorksInSession(h.worlds[0], w)
  {
    hide Enabled, Do, CanHappen, Result;
  }

  /** The session of a worker has been the same since it began. */
  ghost predicate SameSession(h: History, i: nat, k: nat, w: nat) {
    i < k < |h.worlds| && w in h.worlds[k].sessions
    && forall m | i < m <= k :: w in h.worlds[m].sessions && h.worlds[m].sessions[w] == h.worlds[k].sessions[w]
  }

  /** A session begins with the row of its binding at that time. */
  ghost predicate BeginsAt(h: History, i: nat, w: nat, x: Session) {
    i < |h.happenings| && i < |h.worlds|
    && h.happenings[i] == Begins(w, x.binding, x.workspaceLive, x.recorded)
    && x.before == RowOf(h.worlds[i], x.binding) && w !in h.worlds[i].sessions
  }

  lemma {:induction false} SessionBegan(h: History, k: nat, w: nat) returns (i: nat)
    requires IsHistory(h) && k < |h.worlds| && w in h.worlds[k].sessions
    ensures i < k && SameSession(h, i, k, w) && BeginsAt(h, i, w, h.worlds[k].sessions[w])
  {
    hide Enabled, Do;
    assert CanHappen(h.worlds[k - 1], h.happenings[k - 1]) && h.worlds[k] == Result(h.worlds[k - 1], h.happenings[k - 1]);
    if h.happenings[k - 1].Begins? && h.happenings[k - 1].w == w {
      i := k - 1;
    } else {
      i := SessionBegan(h, k - 1, w);
    }
  }

  /**
    Every call belongs to one evaluation of a binding it concerns. The evaluation began with the workspace
    open and the binding live, nothing else was evaluated by that worker since, and in it the engine decided
    what the call sends.
  */
  lemma CallsHaveLivePermission(h: History, k: nat) returns (i: nat, j: nat, x: Session, p: Plan)
    requires IsHistory(h) && k < |h.happenings| && h.happenings[k].Steps? && h.happenings[k].step.Call?
    ensures var w, s := h.happenings[k].step.w, h.worlds[k].bids;
            && PhaseOf(s, w).Leased? && PhaseOf(s, w).id < |s.actions| && p == s.actions[PhaseOf(s, w).id].plan
            && i < j < k && BeginsAt(h, i, w, x) && SameSession(h, i, k, w) && h.worlds[k].sessions[w] == x
            && x.workspaceLive && RowOf(h.worlds[i + 1], x.binding).stage.Live? && Concerns(x.binding, p)
            && h.happenings[j].Steps? && Decides(h.worlds[j].bids, h.happenings[j].step, w, p)
  {
    hide Enabled, Do, CanHappen, Decides, Concerns;
    var w := h.happenings[k].step.w;
    var r := ProtocolRun(h);
    HistoryIsRun(h);
    CallHasPlan(r, k);
    p := PlanOf(r.states[k], w).value;
    j := PlanWasDecided(r, k, w);
    AlwaysInSession(h, k, w);
    x := h.worlds[k].sessions[w];
    i := SessionBegan(h, k, w);
    DecidedInSession(h, i, j, k, w, p);
    BegunRow(h, i, w, x);
  }

  /** The decision falls into the session: a worker without a session pursues no plan. */
  lemma DecidedInSession(h: History, i: nat, j: nat, k: nat, w: nat, p: Plan)
    requires IsHistory(h) && i < k < |h.worlds| && j < k && w !in h.worlds[i].sessions
    requires h.happenings[i].Begins? && Decides(h.worlds[j].bids, ProtocolStep(h.happenings[j]), w, p)
    requires forall m | j < m <= k :: PlanOf(ProtocolRun(h).states[m], w) == Some(p)
    ensures i < j && h.happenings[j].Steps?
  {
    hide Enabled, Do, CanHappen, Result;
    AlwaysInSession(h, i, w);
    IdleHasNoPlan(h.worlds[i].bids, w);
    assert ProtocolRun(h).states[i] == h.worlds[i].bids;
    assert PlanOf(ProtocolRun(h).states[i], w).None?;
  }

  lemma BegunRow(h: History, i: nat, w: nat, x: Session)
    requires IsHistory(h) && BeginsAt(h, i, w, x)
    ensures RowOf(h.worlds[i + 1], x.binding) == Rollout.Begun(x.before)
  {
    hide Enabled, Do, CanHappen;
    assert h.worlds[i + 1] == Result(h.worlds[i], h.happenings[i]);
  }

  // ------------------------------------------------------------- losing the permission

  /** An evaluation of the binding ends as its validation, and no hold stands. */
  ghost predicate Validates(x: World, h: Happening, b: Binding) {
    && h.Ends? && h.w in x.sessions && x.sessions[h.w].binding == b
    && Rollout.Promotes(x.sessions[h.w].before, EvaluationOf(x.sessions[h.w], [], h.ending))
    && !RowOf(x, b).stage.ManualHold?
  }

  ghost predicate Resaves(h: Happening, b: Binding) {
    h.Operates? && h.binding == b && Rollout.LiveResave(h.update)
  }

  /** Exactly when a binding that is not live becomes live, however many evaluations of it overlap. */
  lemma ReturnsToLiveIff(x: World, h: Happening, b: Binding)
    requires CanHappen(x, h) && !RowOf(x, b).stage.Live?
    ensures RowOf(Result(x, h), b).stage.Live? <==> Validates(x, h, b) || Resaves(h, b)
  {
    hide Enabled, Do;
  }

  lemma {:induction false} SomethingMadeItLive(h: History, b: Binding, n: nat, k: nat) returns (j: nat)
    requires IsHistory(h) && n <= k < |h.worlds|
    requires !RowOf(h.worlds[n], b).stage.Live? && RowOf(h.worlds[k], b).stage.Live?
    ensures n <= j < k && !RowOf(h.worlds[j], b).stage.Live?
    ensures Validates(h.worlds[j], h.happenings[j], b) || Resaves(h.happenings[j], b)
    decreases k
  {
    hide Enabled, Do, CanHappen, Validates, Resaves, RowOf;
    assert CanHappen(h.worlds[k - 1], h.happenings[k - 1]) && h.worlds[k] == Result(h.worlds[k - 1], h.happenings[k - 1]);
    if RowOf(h.worlds[k - 1], b).stage.Live? {
      j := SomethingMadeItLive(h, b, n, k - 1);
    } else {
      j := k - 1;
      ReturnsToLiveIff(h.worlds[k - 1], h.happenings[k - 1], b);
    }
  }

  /** A session without permission sends nothing; one that validates its binding has none. */
  lemma ValidationSendsNothing(h: History, j: nat, m: nat)
    requires IsHistory(h) && j < |h.happenings| && h.happenings[j].Ends?
    requires var x := h.worlds[j].sessions;
             h.happenings[j].w in x && Validates(h.worlds[j], h.happenings[j], x[h.happenings[j].w].binding)
    requires m < j && exists i: nat :: i < m && SameSession(h, i, j, h.happenings[j].w)
    ensures h.happenings[m].Steps? && h.happenings[m].step.Call? ==> h.happenings[m].step.w != h.happenings[j].w
  {
    hide Enabled, Do, CanHappen, Result;
    var w := h.happenings[j].w;
    if h.happenings[m].Steps? && h.happenings[m].step.Call? {
      AlwaysInSession(h, m, h.happenings[m].step.w);
      HistoryIsRun(h);
      CallHasPlan(ProtocolRun(h), m);
      assert ProtocolRun(h).states[m] == h.worlds[m].bids;
    }
  }

  /** An evaluation ends in a block that marks the rollout of its binding. */
  ghost predicate MarksBlocked(x: World, h: Happening, b: Binding) {
    && h.Ends? && h.w in x.sessions && x.sessions[h.w].binding == b
    && Rollout.Marks(x.sessions[h.w].before, EvaluationOf(x.sessions[h.w], [], h.ending))
  }

  ghost predicate Holds(h: Happening, b: Binding) {
    h.Operates? && h.binding == b && h.update.hold
  }

  lemma LosesLive(x: World, h: Happening, b: Binding)
    requires CanHappen(x, h) && (MarksBlocked(x, h, b) || Holds(h, b))
    ensures !RowOf(Result(x, h), b).stage.Live?
  {
    hide Enabled, Do;
  }

  /**
    After a marking block or an operator's hold of a binding, a call that concerns it comes from an evaluation
    that another worker had already begun, or the binding has returned to live before the evaluation began:
    through an evaluation that ended as its validation without having sent anything, or through a live re-save
    of a row that was not live.
  */
  lemma CallAfterLossNeedsReturn(h: History, m: nat, k: nat, b: Binding) returns (i: nat, j: nat)
    requires IsHistory(h) && m < k < |h.happenings| && h.happenings[k].Steps? && h.happenings[k].step.Call?
    requires var w := h.happenings[k].step.w; w in h.worlds[k].sessions && h.worlds[k].sessions[w].binding == b
    requires MarksBlocked(h.worlds[m], h.happenings[m], b) || Holds(h.happenings[m], b)
    ensures var w := h.happenings[k].step.w;
            && i != m && i < k && BeginsAt(h, i, w, h.worlds[k].sessions[w]) && SameSession(h, i, k, w)
            && (i < m ==> !(h.happenings[m].Ends? && h.happenings[m].w == w))
            && (i > m ==>
                  && m < j < i && !RowOf(h.worlds[j], b).stage.Live?
                  && (Validates(h.worlds[j], h.happenings[j], b) || Resaves(h.happenings[j], b)))
  {
    hide Enabled, Do, CanHappen, Decides, MarksBlocked, Holds, Validates, Resaves;
    var i0, j0, x, p := CallsHaveLivePermission(h, k);
    i, j := i0, 0;
    assert CanHappen(h.worlds[m], h.happenings[m]) && h.worlds[m + 1] == Result(h.worlds[m], h.happenings[m]);
    LosesLive(h.worlds[m], h.happenings[m], b);
    LossIsNoBeginning(h.worlds[m], h.happenings[m], b);
    if i > m {
      BegunIsLive(h, i, x);
      j := SomethingMadeItLive(h, b, m + 1, i);
    } else {
      EndsOwnSession(h, i, m, k, h.happenings[k].step.w);
    }
  }

  lemma LossIsNoBeginning(x: World, h: Happening, b: Binding)
    requires MarksBlocked(x, h, b) || Holds(h, b)
    ensures !h.Begins?
  {
  }

  /** With permission the row was live already when the evaluation began. */
  lemma BegunIsLive(h: History, i: nat, x: Session)
    requires i < |h.worlds| && x.before == RowOf(h.worlds[i], x.binding) && Rollout.Begun(x.before).stage.Live?
    ensures RowOf(h.worlds[i], x.binding).stage.Live?
  {
  }

  /** A worker whose session lasts has not ended it. */
  lemma EndsOwnSession(h: History, i: nat, m: nat, k: nat, w: nat)
    requires IsHistory(h) && i <= m < k && SameSession(h, i, k, w)
    ensures !(h.happenings[m].Ends? && h.happenings[m].w == w)
  {
    hide Enabled, Do, CanHappen;
    assert h.worlds[m + 1] == Result(h.worlds[m], h.happenings[m]);
  }

  // ------------------------------------------------------------ sessions as evaluations

  function UpdatesOf(hs: seq<Happening>, b: Binding): seq<Rollout.Update> {
    if hs == [] then []
    else
      var earlier, last := UpdatesOf(hs[..|hs| - 1], b), hs[|hs| - 1];
      if last.Operates? && last.binding == b then earlier + [last.update] else earlier
  }

  /** No other evaluation of the binding begins or ends. */
  ghost predicate Alone(h: History, i: nat, k: nat, b: Binding)
    requires k <= |h.happenings| && k <= |h.worlds|
  {
    forall m | i < m < k ::
      && !(h.happenings[m].Begins? && h.happenings[m].binding == b)
      && !(h.happenings[m].Ends? && h.happenings[m].w in h.worlds[m].sessions
           && h.worlds[m].sessions[h.happenings[m].w].binding == b)
  }

  lemma {:induction false} RowMeanwhile(h: History, i: nat, k: nat, w: nat, x: Session)
    requires IsHistory(h) && i < k <= |h.happenings| && BeginsAt(h, i, w, x) && Alone(h, i, k, x.binding)
    ensures RowOf(h.worlds[k], x.binding)
         == Rollout.AfterUpdates(Rollout.Begun(x.before), UpdatesOf(h.happenings[i + 1..k], x.binding))
    decreases k
  {
    hide Enabled, Do, CanHappen;
    if k == i + 1 {
      BegunRow(h, i, w, x);
    } else {
      RowMeanwhile(h, i, k - 1, w, x);
      assert h.worlds[k] == Result(h.worlds[k - 1], h.happenings[k - 1]);
      var hs := h.happenings[i + 1..k];
      assert hs[..|hs| - 1] == h.happenings[i + 1..k - 1] && hs[|hs| - 1] == h.happenings[k - 1];
      OneMoreHappening(h.worlds[k - 1], h.happenings[k - 1], hs, Rollout.Begun(x.before), x.binding);
    }
  }

  lemma OneMoreHappening(x: World, last: Happening, hs: seq<Happening>, start: Rollout.Row, b: Binding)
    requires CanHappen(x, last) && hs != [] && hs[|hs| - 1] == last
    requires RowOf(x, b) == Rollout.AfterUpdates(start, UpdatesOf(hs[..|hs| - 1], b))
    requires !(last.Begins? && last.binding == b)
    requires !(last.Ends? && last.w in x.sessions && x.sessions[last.w].binding == b)
    ensures RowOf(Result(x, last), b) == Rollout.AfterUpdates(start, UpdatesOf(hs, b))
  {
    hide Enabled, Do;
    if last.Operates? && last.binding == b {
      var us := UpdatesOf(hs, b);
      assert us[..|us| - 1] == UpdatesOf(hs[..|hs| - 1], b);
    }
  }

  /**
    An evaluation that is alone with its binding is one event of the rollout's timeline: it leaves the row
    that this event leaves, with the operator's updates of that time as those during the evaluation.
  */
  lemma SessionIsEvaluation(h: History, i: nat, k: nat, w: nat, x: Session)
    requires IsHistory(h) && i < k < |h.happenings| && BeginsAt(h, i, w, x) && Alone(h, i, k, x.binding)
    requires SameSession(h, i, k, w) && h.happenings[k].Ends? && h.happenings[k].w == w
    ensures var during := UpdatesOf(h.happenings[i + 1..k], x.binding);
            RowOf(h.worlds[k + 1], x.binding)
            == Rollout.AfterEvaluation(RowOf(h.worlds[i], x.binding), EvaluationOf(x, during, h.happenings[k].ending))
  {
    hide Enabled, Do, CanHappen;
    RowMeanwhile(h, i, k, w, x);
    assert h.worlds[i + 1] == Result(h.worlds[i], h.happenings[i]) && h.worlds[i + 1].sessions[w] == x;
    assert h.worlds[k + 1] == Result(h.worlds[k], h.happenings[k]) && h.worlds[k].sessions[w] == x;
  }
}
