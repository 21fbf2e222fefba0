/**
  Concrete runs of the write protocol that show where its promises need their conditions: two workers
  around midnight pass the daily cap, a reconciliation between the action guard and the unresolved check
  breaks the cooldown, and a worker or a reconciler that ends an action after another reconciler has logged
  another outcome leaves log and action different.
*/
module WriteScenarios {
  import opened Numeric
  import opened Strategy
  import opened BidEngine
  import opened WriteProtocol
  import opened WriteSafety
  import opened DailyCap
  import opened ChangeSpacing
  import opened LogAgreement

  // ------------------------------------------------------------ running a script

  /** The steps can be taken one after the other and lead from `s` to `t`. */
  ghost predicate Leads(s: State, script: seq<Step>, t: State)
    decreases |script|
  {
    if script == [] then s == t
    else Enabled(s, script[0]) && Leads(Do(s, script[0]), script[1..], t)
  }

  lemma First(s: State, step: Step, script: seq<Step>, t: State)
    requires Enabled(s, step) && Leads(Do(s, step), script, t)
    ensures Leads(s, [step] + script, t)
  {
    hide Enabled, Do;
    assert ([step] + script)[1..] == script;
  }

  lemma Single(s: State, step: Step, t: State)
    requires Enabled(s, step) && t == Do(s, step)
    ensures Leads(s, [step], t)
  {
    hide Enabled, Do;
    First(s, step, [], t);
  }

  lemma {:induction false} Chain(s: State, a: seq<Step>, t: State, b: seq<Step>, u: State)
    requires Leads(s, a, t) && Leads(t, b, u)
    ensures Leads(s, a + b, u)
    decreases |a|
  {
    hide Enabled, Do;
    if a == [] {
      assert a + b == b;
    } else {
      assert a + b == [a[0]] + (a[1..] + b);
      Chain(Do(s, a[0]), a[1..], t, b, u);
      First(s, a[0], a[1..] + b, u);
    }
  }

  lemma {:induction false} States(s: State, script: seq<Step>, t: State) returns (states: seq<State>)
    requires Leads(s, script, t)
    ensures |states| == |script| + 1 && states[0] == s && states[|script|] == t
    ensures forall i | 0 <= i < |script| :: Enabled(states[i], script[i]) && states[i + 1] == Do(states[i], script[i])
    decreases |script|
  {
    hide Enabled, Do;
    if script == [] {
      states := [s];
    } else {
      var rest := States(Do(s, script[0]), script[1..], t);
      states := [s] + rest;
    }
  }

  lemma Play(s: State, script: seq<Step>, t: State) returns (r: Run)
    requires Initial(s) && Leads(s, script, t)
    ensures IsRun(r) && r.steps == script && r.states[|script|] == t
  {
    hide Enabled, Do;
    var states := States(s, script, t);
    r := Run(states, script);
  }

  // ------------------------------------------------------- stretches of a worker

  const PARAMS := Params(0.0, 0.0, 10.0, 0.0, map[], map[], "", 0.0, 0.0, 0.0, 0.0, 50, 5000, 0.0, 0.0, 15.0, 10, 120, 3)

  /** A target that is clicked and sells nothing. */
  function Wasted(bid: int): BidContext {
    BidContext(bid, 1000, 15, 500.0, 0.0, 0, None, 0.0, false, 0, 0.0, 0, false, true, 0, 0)
  }

  lemma Cuts()
    ensures WellFormed(PARAMS, Wasted(100)) && CalculateBid(AntiSliv, PARAMS, Wasted(100)) == Some(Decision(100, 85))
    ensures WellFormed(PARAMS, Wasted(85)) && CalculateBid(AntiSliv, PARAMS, Wasted(85)) == Some(Decision(85, 72))
  {
    assert MaxDelta(100, 15.0) == 15 && MaxDelta(85, 15.0) == 13;
    assert Scaled(100, 0.5) == 50 && Scaled(85, 0.5) == 43;
  }

  lemma MoveTwice(s: State, w: nat, p: Phase, q: Phase)
    ensures Move(Move(s, w, p), w, q) == Move(s, w, q)
  {
    assert s.workers[w := p][w := q] == s.workers[w := q];
  }

  function PlanFor(target: Target, d: Decision, observedAt: int): Plan {
    Plan(target, 0, d.oldBid, d.newBid, observedAt, 120, 3)
  }

  function DecideStep(w: nat, target: Target, bid: int): Step {
    Decide(w, target, 0, AntiSliv, PARAMS, Wasted(bid))
  }

  lemma DecideAndGuard(s: State, w: nat, target: Target, d: Decision)
    requires PhaseOf(s, w).Idle? && target in s.observed && s.observed[target].bid == d.oldBid
    requires WellFormed(PARAMS, Wasted(d.oldBid)) && CalculateBid(AntiSliv, PARAMS, Wasted(d.oldBid)) == Some(d)
    requires target.product.None? && s.audits == map[]
    ensures Leads(s, [DecideStep(w, target, d.oldBid), Guard(w, {})],
                  Move(s, w, Guarded(PlanFor(target, d, s.observed[target].at), s.now)))
  {
    hide CalculateBid;
    var p := PlanFor(target, d, s.observed[target].at);
    var s1 := Do(s, DecideStep(w, target, d.oldBid));
    assert s1 == Move(s, w, Decided(p));
    assert RecentChanges(s1, target, {}, s1.now - 60 * 120) == {} == RecentChanges(s1, target, {}, s1.now - SECONDS_PER_DAY);
    MoveTwice(s, w, Decided(p), Guarded(p, s.now));
    assert Do(s1, Guard(w, {})) == Move(s, w, Guarded(p, s.now));
    First(s1, Guard(w, {}), [], Move(s, w, Guarded(p, s.now)));
    First(s, DecideStep(w, target, d.oldBid), [Guard(w, {})], Move(s, w, Guarded(p, s.now)));
  }

  lemma CheckAndReadCap(s: State, w: nat)
    requires PhaseOf(s, w).Guarded? && !HasUnresolved(s, PhaseOf(s, w).plan.target) && AllowsWrites(s.settings)
    ensures Leads(s, [CheckUnresolved(w), ReadCap(w)],
                  Move(s, w, Ready(PhaseOf(s, w).plan, PhaseOf(s, w).guardAt, s.settings.cap, s.now)))
  {
    var p := PhaseOf(s, w);
    var s1 := Move(s, w, Clear(p.plan, p.guardAt));
    var s2 := Move(s, w, Ready(p.plan, p.guardAt, s.settings.cap, s.now));
    MoveTwice(s, w, Clear(p.plan, p.guardAt), Ready(p.plan, p.guardAt, s.settings.cap, s.now));
    First(s1, ReadCap(w), [], s2);
    First(s, CheckUnresolved(w), [ReadCap(w)], s2);
  }

  /** The state after a claim that is recorded as pending. */
  ghost function Claiming(s: State, w: nat): State
    requires PhaseOf(s, w).Ready?
  {
    var p := PhaseOf(s, w);
    Move(s, w, Claimed(|s.actions|, p.windowAt)).(
      actions := s.actions + [Action(p.plan, s.now, Pending, p.guardAt, s.settings.cap, None)])
  }

  lemma ClaimPending(s: State, w: nat)
    requires PhaseOf(s, w).Ready? && s.lease.None? && PhaseOf(s, w).cap == s.settings.cap && AllowsWrites(s.settings)
    requires !HasUnresolved(s, PhaseOf(s, w).plan.target) && !KeyTaken(s, KeyOf(PhaseOf(s, w).plan))
    requires |ChargedOn(s, MoscowDay(PhaseOf(s, w).windowAt))| < s.settings.cap
    ensures Leads(s, [Claim(w)], Claiming(s, w))
  {
    First(s, Claim(w), [], Claiming(s, w));
  }

  // ------------------------------------------------------------ across midnight

  function Campaign(n: nat): Target {
    Target(n, None, "search")
  }

  function Begin(now: int, cap: int): State {
    State(now, Settings(true, false, cap), {0}, map[], {}, [], map[], None, map[], map[], [])
  }

  function Synced(s: State, target: Target, bid: int): State {
    s.(observed := s.observed[target := Observation(bid, s.now)],
       synced := s.synced + {(target, Observation(bid, s.now))})
  }

  lemma SyncStep(s: State, target: Target, bid: int)
    requires bid > 0
    ensures Leads(s, [Sync(target, bid)], Synced(s, target, bid))
  {
    First(s, Sync(target, bid), [], Synced(s, target, bid));
  }

  lemma TickStep(s: State, seconds: nat)
    ensures Leads(s, [Tick(seconds)], s.(now := s.now + seconds))
  {
    First(s, Tick(seconds), [], s.(now := s.now + seconds));
  }

  ghost predicate ByWorker(script: seq<Step>, w: nat) {
    forall step | step in script :: Actor(step).None? || Actor(step) == Some(w)
  }

  /** Nobody stops, and decisions are those of strategy 0 for one target. */
  ghost predicate OnlyFor(script: seq<Step>, target: Target) {
    forall step | step in script :: !step.Stop? && (step.Decide? ==> step.strategy == 0 && step.target == target)
  }

  /** Before any claim exists, an idle worker gets as far as being ready to claim. */
  lemma GetReady(s: State, w: nat, target: Target) returns (script: seq<Step>, t: State)
    requires PhaseOf(s, w).Idle? && target in s.observed && s.observed[target].bid == 100
    requires target.product.None? && s.audits == map[] && s.actions == [] && AllowsWrites(s.settings)
    ensures Leads(s, script, t) && ByWorker(script, w) && OnlyFor(script, target)
    ensures t == Move(s, w, Ready(PlanFor(target, Decision(100, 85), s.observed[target].at), s.now, s.settings.cap, s.now))
  {
    hide Leads, CalculateBid;
    var d := Decision(100, 85);
    Cuts();
    DecideAndGuard(s, w, target, d);
    var p := PlanFor(target, d, s.observed[target].at);
    var s1 := Move(s, w, Guarded(p, s.now));
    CheckAndReadCap(s1, w);
    t := Move(s, w, Ready(p, s.now, s.settings.cap, s.now));
    MoveTwice(s, w, Guarded(p, s.now), Ready(p, s.now, s.settings.cap, s.now));
    Chain(s, [DecideStep(w, target, 100), Guard(w, {})], s1, [CheckUnresolved(w), ReadCap(w)], t);
    script := [DecideStep(w, target, 100), Guard(w, {})] + [CheckUnresolved(w), ReadCap(w)];
  }

  /** One second before midnight, with a cap of one, both workers are ready. */
  lemma BothReady() returns (script: seq<Step>, t: State)
    ensures Leads(Begin(75599, 1), script, t)
    ensures t.now == 75599 && t.settings == Settings(true, false, 1) && t.actions == [] && t.lease.None?
    ensures PhaseOf(t, 1) == Ready(PlanFor(Campaign(1), Decision(100, 85), 75599), 75599, 1, 75599)
    ensures PhaseOf(t, 2) == Ready(PlanFor(Campaign(2), Decision(100, 85), 75599), 75599, 1, 75599)
  {
    hide Leads;
    var s := Begin(75599, 1);
    var s1 := Synced(s, Campaign(1), 100);
    var s2 := Synced(s1, Campaign(2), 100);
    SyncStep(s, Campaign(1), 100);
    SyncStep(s1, Campaign(2), 100);
    Chain(s, [Sync(Campaign(1), 100)], s1, [Sync(Campaign(2), 100)], s2);
    var a, s3 := GetReady(s2, 1, Campaign(1));
    Chain(s, [Sync(Campaign(1), 100)] + [Sync(Campaign(2), 100)], s2, a, s3);
    var b, s4 := GetReady(s3, 2, Campaign(2));
    Chain(s, [Sync(Campaign(1), 100)] + [Sync(Campaign(2), 100)] + a, s3, b, s4);
    script, t := [Sync(Campaign(1), 100)] + [Sync(Campaign(2), 100)] + a + b, s4;
  }

  /**
    Two workers that count the old day and claim in the new one put two actions on a day whose cap
    was one all along.
  */
  lemma MidnightRaceExceedsCap() returns (r: Run, t: State)
    ensures IsRun(r) && t == r.states[|r.steps|]
    ensures |ChargedOn(t, 1)| == 2
    ensures forall id | id in ChargedOn(t, 1) :: t.actions[id].cap == 1
  {
    hide Leads;
    var script, s := BothReady();
    var s1 := s.(now := 75600);
    TickStep(s, 1);
    assert ChargedOn(s1, 0) == {};
    ClaimPending(s1, 1);
    var s2 := Claiming(s1, 1);
    assert ChargedOn(s2, 0) == {};
    ClaimPending(s2, 2);
    t := Claiming(s2, 2);
    assert ChargedOn(t, 1) == {0, 1};
    var s0 := Begin(75599, 1);
    Chain(s0, script, s, [Tick(1)], s1);
    Chain(s0, script + [Tick(1)], s1, [Claim(1)], s2);
    Chain(s0, script + [Tick(1)] + [Claim(1)], s2, [Claim(2)], t);
    r := Play(s0, script + [Tick(1)] + [Claim(1)] + [Claim(2)], t);
  }

  // ---------------------------------------------- between guard and unresolved check

  const CALLING := [ReloadSettings(1), ReloadStrategy(1), RereadCap(1), TakeLease(1), Call(1, WbApplied)]

  ghost function Calling(s: State, id: nat): State {
    Move(s, 1, Written(id, WbApplied)).(writes := s.writes + [Write(id, 1, s.now)], lease := Some(1))
  }

  lemma ReloadStretch(s: State, id: nat, windowAt: int)
    requires PhaseOf(s, 1) == Claimed(id, windowAt) && id < |s.actions|
    requires AllowsWrites(s.settings) && s.actions[id].plan.strategy in s.active
    ensures Leads(s, [ReloadSettings(1), ReloadStrategy(1), RereadCap(1)],
                  Move(s, 1, CapReloaded(id, windowAt, s.settings.cap)))
  {
    hide Leads, GuardPasses, HasUnresolved, KeyTaken, ChargedOn, AfterClaim, CalculateBid, Fresh;
    var s1 := Move(s, 1, SettingsReloaded(id, windowAt));
    var s2 := Move(s, 1, Reloaded(id, windowAt));
    var s3 := Move(s, 1, CapReloaded(id, windowAt, s.settings.cap));
    MoveTwice(s, 1, SettingsReloaded(id, windowAt), Reloaded(id, windowAt));
    MoveTwice(s, 1, Reloaded(id, windowAt), CapReloaded(id, windowAt, s.settings.cap));
    Single(s, ReloadSettings(1), s1);
    Single(s1, ReloadStrategy(1), s2);
    Single(s2, RereadCap(1), s3);
    Chain(s, [ReloadSettings(1)], s1, [ReloadStrategy(1)], s2);
    Chain(s, [ReloadSettings(1)] + [ReloadStrategy(1)], s2, [RereadCap(1)], s3);
    assert [ReloadSettings(1)] + [ReloadStrategy(1)] + [RereadCap(1)] == [ReloadSettings(1), ReloadStrategy(1), RereadCap(1)];
  }

  lemma LeaseStretch(s: State, id: nat, windowAt: int)
    requires PhaseOf(s, 1) == CapReloaded(id, windowAt, s.settings.cap)
    requires id < |s.actions| && s.actions[id].status.Pending? && AllowsWrites(s.settings) && s.lease.None?
    requires |ChargedOn(s, MoscowDay(windowAt))| <= s.settings.cap
    ensures Leads(s, [TakeLease(1), Call(1, WbApplied)], Calling(s, id))
  {
    var s1 := Move(s, 1, Leased(id)).(lease := Some(1));
    MoveTwice(s, 1, Leased(id), Written(id, WbApplied));
    First(s1, Call(1, WbApplied), [], Calling(s, id));
    First(s, TakeLease(1), [Call(1, WbApplied)], Calling(s, id));
  }

  /** With its claim counted in, the worker passes the reloads and the lease and calls. */
  lemma CallStretch(s: State, id: nat, windowAt: int)
    requires PhaseOf(s, 1) == Claimed(id, windowAt) && id < |s.actions| && s.actions[id].status.Pending?
    requires AllowsWrites(s.settings) && s.lease.None? && s.actions[id].plan.strategy in s.active
    requires |ChargedOn(s, MoscowDay(windowAt))| <= s.settings.cap
    ensures Leads(s, CALLING, Calling(s, id))
  {
    hide Leads;
    var s1 := Move(s, 1, CapReloaded(id, windowAt, s.settings.cap));
    ReloadStretch(s, id, windowAt);
    assert ChargedOn(s1, MoscowDay(windowAt)) == ChargedOn(s, MoscowDay(windowAt));
    LeaseStretch(s1, id, windowAt);
    MoveTwice(s, 1, CapReloaded(id, windowAt, s.settings.cap), Written(id, WbApplied));
    Chain(s, [ReloadSettings(1), ReloadStrategy(1), RereadCap(1)], s1, [TakeLease(1), Call(1, WbApplied)], Calling(s, id));
    assert CALLING == [ReloadSettings(1), ReloadStrategy(1), RereadCap(1)] + [TakeLease(1), Call(1, WbApplied)];
  }

  lemma StopStep(s: State, w: nat)
    ensures Leads(s, [Stop(w)], Unlock(Move(s, w, Idle), w))
  {
    First(s, Stop(w), [], Unlock(Move(s, w, Idle), w));
  }

  const FIRST := Action(PlanFor(Campaign(1), Decision(100, 85), 0), 0, Pending, 0, 5, None)

  lemma FirstCall() returns (script: seq<Step>, t: State)
    ensures Leads(Begin(0, 5), script, t) && ByWorker(script, 1) && OnlyFor(script, Campaign(1))
    ensures script != [] && script[|script| - 1] == Call(1, WbApplied)
    ensures t.now == 0 && t.settings == Settings(true, false, 5) && t.active == {0} && t.lease == Some(1)
    ensures t.actions == [FIRST] && t.audits == map[] && t.reconcilers == map[]
    ensures PhaseOf(t, 1) == Written(0, WbApplied)
  {
    hide Leads;
    var s := Begin(0, 5);
    var s1 := Synced(s, Campaign(1), 100);
    SyncStep(s, Campaign(1), 100);
    var a, s2 := GetReady(s1, 1, Campaign(1));
    assert ChargedOn(s2, 0) == {};
    ClaimPending(s2, 1);
    var s3 := Claiming(s2, 1);
    assert s3.actions == [FIRST] && ChargedOn(s3, 0) == {0};
    CallStretch(s3, 0, 0);
    t := Calling(s3, 0);
    Chain(s, [Sync(Campaign(1), 100)], s1, a, s2);
    Chain(s, [Sync(Campaign(1), 100)] + a, s2, [Claim(1)], s3);
    Chain(s, [Sync(Campaign(1), 100)] + a + [Claim(1)], s3, CALLING, t);
    script := [Sync(Campaign(1), 100)] + a + [Claim(1)] + CALLING;
  }

  /** The worker stops right after its first call, five minutes pass and the new bid is synchronised. */
  lemma StoppedAfterCall() returns (script: seq<Step>, t: State)
    ensures Leads(Begin(0, 5), script, t) && ByWorker(script, 1)
    ensures t.now == 300 && t.settings == Settings(true, false, 5) && t.active == {0} && t.lease.None?
    ensures t.actions == [FIRST] && t.audits == map[] && t.reconcilers == map[] && PhaseOf(t, 1).Idle?
    ensures Campaign(1) in t.observed && t.observed[Campaign(1)] == Observation(85, 300)
  {
    hide Leads;
    var s0 := Begin(0, 5);
    var a, s := FirstCall();
    StopStep(s, 1);
    var s1 := Unlock(Move(s, 1, Idle), 1);
    TickStep(s1, 300);
    var s2 := s1.(now := s1.now + 300);
    SyncStep(s2, Campaign(1), 85);
    t := Synced(s2, Campaign(1), 85);
    Chain(s0, a, s, [Stop(1)], s1);
    Chain(s0, a + [Stop(1)], s1, [Tick(300)], s2);
    Chain(s0, a + [Stop(1)] + [Tick(300)], s2, [Sync(Campaign(1), 85)], t);
    script := a + [Stop(1)] + [Tick(300)] + [Sync(Campaign(1), 85)];
  }

  // ------------------------------------------------------ stretches of a reconciler

  lemma ObserveStep(s: State, c: nat, id: nat, obs: Observation)
    requires ReconcilerOf(s, c).Waiting? && id < |s.actions| && s.actions[id] == FIRST && s.now >= 300
    requires Campaign(1) in s.observed && s.observed[Campaign(1)] == obs && obs.at > 0
    ensures Leads(s, [Observe(c, id)], TakeTurn(s, c, Observed(id, obs)))
  {
    Single(s, Observe(c, id), TakeTurn(s, c, Observed(id, obs)));
  }

  lemma UpsertStep(s: State, c: nat)
    requires ReconcilerOf(s, c).Observed? && ReconcilerOf(s, c).id < |s.actions|
    ensures Leads(s, [AuditReconciled(c)], AfterUpsert(s, c))
  {
    hide AfterUpsert;
    Single(s, AuditReconciled(c), AfterUpsert(s, c));
  }

  lemma ResolveStep(s: State, c: nat)
    requires ReconcilerOf(s, c).AuditWritten? && ReconcilerOf(s, c).id < |s.actions|
    ensures Leads(s, [Resolve(c)], AfterResolve(s, c))
  {
    hide AfterResolve;
    Single(s, Resolve(c), AfterResolve(s, c));
  }

  const RECONCILING := [Observe(1, 0)] + [AuditReconciled(1)] + [Resolve(1)]

  const SEEN_APPLIED := FIRST.(status := Applied, evidence := Some(Observation(85, 300)))

  /** A reconciler finds the new bid in force and resolves the first action as applied. */
  ghost function Reconciled(s: State): State {
    TakeTurn(s, 1, Waiting).(audits := map[0 := Audit(Applied, s.now)], actions := [SEEN_APPLIED])
  }

  lemma TurnTwice(s: State, c: nat, p: ReconcilerPhase, q: ReconcilerPhase)
    ensures TakeTurn(TakeTurn(s, c, p), c, q) == TakeTurn(s, c, q)
  {
    assert s.reconcilers[c := p][c := q] == s.reconcilers[c := q];
  }

  lemma ReconcileStretch(s: State)
    requires s.now == 300 && s.actions == [FIRST] && s.audits == map[] && s.reconcilers == map[]
    requires Campaign(1) in s.observed && s.observed[Campaign(1)] == Observation(85, 300)
    ensures Leads(s, RECONCILING, Reconciled(s))
  {
    hide Leads;
    var obs := Observation(85, 300);
    var s1 := TakeTurn(s, 1, Observed(0, obs));
    ObserveStep(s, 1, 0, obs);
    UpsertStep(s1, 1);
    TurnTwice(s, 1, Observed(0, obs), AuditWritten(0, obs));
    var s2 := AfterUpsert(s1, 1);
    assert s2.audits == map[0 := Audit(Applied, 300)];
    assert s2.reconcilers == s.reconcilers[1 := AuditWritten(0, obs)];
    ResolveStep(s2, 1);
    TurnTwice(s, 1, AuditWritten(0, obs), Waiting);
    assert AfterResolve(s2, 1) == Reconciled(s);
    Chain(s, [Observe(1, 0)], s1, [AuditReconciled(1)], s2);
    Chain(s, [Observe(1, 0)] + [AuditReconciled(1)], s2, [Resolve(1)], Reconciled(s));
  }

  ghost function Logged(s: State, id: nat): State {
    Move(s, 1, Audited(id, WbApplied)).(lease := None, audits := s.audits[id := Audit(Applied, s.now)])
  }

  lemma LogStretch(s: State, id: nat)
    requires PhaseOf(s, 1) == Written(id, WbApplied) && s.lease == Some(1) && id !in s.audits
    ensures Leads(s, [ReleaseLease(1), RecordAudit(1)], Logged(s, id))
  {
    var s1 := Move(s, 1, Released(id, WbApplied)).(lease := None);
    MoveTwice(s, 1, Released(id, WbApplied), Audited(id, WbApplied));
    First(s1, RecordAudit(1), [], Logged(s, id));
    First(s, ReleaseLease(1), [RecordAudit(1)], Logged(s, id));
  }

  const SECOND_PLAN := PlanFor(Campaign(1), Decision(85, 72), 300)

  /** The second plan passes the guard and then a reconciler resolves the first action. */
  lemma ReconciledAfterGuard() returns (script: seq<Step>, t: State)
    ensures Leads(Begin(0, 5), script, t) && ByWorker(script, 1)
    ensures t.now == 300 && t.settings == Settings(true, false, 5) && t.active == {0} && t.lease.None?
    ensures PhaseOf(t, 1) == Guarded(SECOND_PLAN, 300)
    ensures t.audits == map[0 := Audit(Applied, 300)] && t.actions == [SEEN_APPLIED]
  {
    hide Leads, Enabled, Do, GuardPasses, CalculateBid;
    var s0 := Begin(0, 5);
    var s;
    script, s := StoppedAfterCall();
    Cuts();
    DecideAndGuard(s, 1, Campaign(1), Decision(85, 72));
    var s1 := Move(s, 1, Guarded(SECOND_PLAN, 300));
    Chain(s0, script, s, [DecideStep(1, Campaign(1), 85), Guard(1, {})], s1);
    script := script + [DecideStep(1, Campaign(1), 85), Guard(1, {})];
    ReconcileStretch(s1);
    t := Reconciled(s1);
    Chain(s0, script, s1, RECONCILING, t);
    script := script + RECONCILING;
  }

  /** Then the plan passes the unresolved check and is claimed. */
  lemma ClaimedAfterLateReconciliation() returns (script: seq<Step>, t: State)
    ensures Leads(Begin(0, 5), script, t) && ByWorker(script, 1)
    ensures t.now == 300 && t.settings == Settings(true, false, 5) && t.active == {0} && t.lease.None?
    ensures PhaseOf(t, 1) == Claimed(1, 300) && t.audits == map[0 := Audit(Applied, 300)]
    ensures t.actions == [SEEN_APPLIED, Action(SECOND_PLAN, 300, Pending, 300, 5, None)]
  {
    hide Leads, Enabled, Do, GuardPasses, CalculateBid;
    var s0 := Begin(0, 5);
    var s;
    script, s := ReconciledAfterGuard();
    CheckAndReadCap(s, 1);
    var s1 := Move(s, 1, Ready(SECOND_PLAN, 300, 5, 300));
    Chain(s0, script, s, [CheckUnresolved(1), ReadCap(1)], s1);
    script := script + [CheckUnresolved(1), ReadCap(1)];
    assert ChargedOn(s1, 0) == {0};
    ClaimPending(s1, 1);
    t := Claiming(s1, 1);
    Chain(s0, script, s1, [Claim(1)], t);
    script := script + [Claim(1)];
  }

  /**
    One worker, no other change of the bid: an action left behind by a stopped worker is resolved as
    applied after the guard of the next plan and before its unresolved check, and two changes of one
    target are logged as applied at the same moment despite a cooldown of two hours.
  */
  lemma LateReconciliationBreaksCooldown() returns (r: Run, t: State)
    ensures IsRun(r) && OneWorker(r, 1) && t == r.states[|r.steps|]
    ensures LoggedApplied(t, 0) && LoggedApplied(t, 1) && t.actions[0].plan.target == t.actions[1].plan.target
    ensures t.audits[1].createdAt == t.audits[0].createdAt && t.actions[1].plan.cooldownMinutes == 120
  {
    hide Leads, Enabled, Do;
    var script, s := ClaimedAfterLateReconciliation();
    assert ChargedOn(s, 0) == {0, 1};
    CallStretch(s, 1, 300);
    var s1 := Calling(s, 1);
    LogStretch(s1, 1);
    t := Logged(s1, 1);
    var s0 := Begin(0, 5);
    Chain(s0, script, s, CALLING, s1);
    Chain(s0, script + CALLING, s1, [ReleaseLease(1), RecordAudit(1)], t);
    script := script + CALLING + [ReleaseLease(1), RecordAudit(1)];
    assert ByWorker(script, 1);
    r := Play(s0, script, t);
    forall k | 0 <= k < |r.steps| ensures Actor(r.steps[k]).Some? ==> Actor(r.steps[k]) == Some(1) {
      assert r.steps[k] in script;
    }
  }

  // --------------------------------------------- between the reconciler's two updates

  const STALE_LOOK := [Observe(1, 0)] + [AuditReconciled(1)]

  /** A reconciler has seen the old bid and logged that the change was not applied. */
  ghost function LoggedOtherwise(s: State): State {
    TakeTurn(s, 1, AuditWritten(0, Observation(100, 300))).(audits := map[0 := Audit(NotApplied, 0)])
  }

  lemma StaleLookStretch(s: State)
    requires s.now == 300 && s.actions == [FIRST] && s.audits == map[0 := Audit(Applied, 0)] && s.reconcilers == map[]
    requires Campaign(1) in s.observed && s.observed[Campaign(1)] == Observation(100, 300)
    ensures Leads(s, STALE_LOOK, LoggedOtherwise(s))
  {
    hide Leads;
    var obs := Observation(100, 300);
    var s1 := TakeTurn(s, 1, Observed(0, obs));
    ObserveStep(s, 1, 0, obs);
    UpsertStep(s1, 1);
    TurnTwice(s, 1, Observed(0, obs), AuditWritten(0, obs));
    assert s.audits[0 := Audit(NotApplied, 0)] == map[0 := Audit(NotApplied, 0)];
    assert AfterUpsert(s1, 1) == LoggedOtherwise(s);
    Chain(s, [Observe(1, 0)], s1, [AuditReconciled(1)], LoggedOtherwise(s));
  }

  /** The worker has logged its change as applied and is slow to complete it; meanwhile the old bid is synchronised. */
  lemma SlowToComplete() returns (script: seq<Step>, t: State)
    ensures Leads(Begin(0, 5), script, t)
    ensures t.now == 300 && t.actions == [FIRST] && t.audits == map[0 := Audit(Applied, 0)] && t.reconcilers == map[]
    ensures Campaign(1) in t.observed && t.observed[Campaign(1)] == Observation(100, 300)
    ensures PhaseOf(t, 1) == Audited(0, WbApplied)
  {
    hide Leads;
    var s0 := Begin(0, 5);
    var a, s := FirstCall();
    LogStretch(s, 0);
    var s1 := Logged(s, 0);
    TickStep(s1, 300);
    var s2 := s1.(now := s1.now + 300);
    SyncStep(s2, Campaign(1), 100);
    t := Synced(s2, Campaign(1), 100);
    assert map[][0 := Audit(Applied, 0)] == map[0 := Audit(Applied, 0)];
    Chain(s0, a, s, [ReleaseLease(1), RecordAudit(1)], s1);
    Chain(s0, a + [ReleaseLease(1), RecordAudit(1)], s1, [Tick(300)], s2);
    Chain(s0, a + [ReleaseLease(1), RecordAudit(1)] + [Tick(300)], s2, [Sync(Campaign(1), 100)], t);
    script := a + [ReleaseLease(1), RecordAudit(1)] + [Tick(300)] + [Sync(Campaign(1), 100)];
  }

  lemma CompleteStep(s: State)
    requires PhaseOf(s, 1) == Audited(0, WbApplied) && s.actions == [FIRST]
    ensures Leads(s, [Complete(1)], Move(s, 1, Idle).(actions := [FIRST.(status := Applied)]))
  {
    hide Leads, GuardPasses, HasUnresolved, KeyTaken, ChargedOn, AfterClaim, AfterUpsert, AfterResolve, CalculateBid;
    var t := Do(s, Complete(1));
    assert t.actions == [FIRST.(status := Applied)];
    Single(s, Complete(1), t);
  }

  /** A finished action that is applied by the action table and not applied by the log. */
  lemma LogAndActionDisagree() returns (r: Run, t: State)
    ensures IsRun(r) && t == r.states[|r.steps|]
    ensures |t.actions| == 1 && t.actions[0].status.Applied? && 0 in t.audits && t.audits[0].status.NotApplied?
    ensures !Agrees(t, 0)
  {
    hide Leads;
    var script, s := SlowToComplete();
    StaleLookStretch(s);
    var s1 := LoggedOtherwise(s);
    CompleteStep(s1);
    t := Move(s1, 1, Idle).(actions := [FIRST.(status := Applied)]);
    var s0 := Begin(0, 5);
    Chain(s0, script, s, STALE_LOOK, s1);
    Chain(s0, script + STALE_LOOK, s1, [Complete(1)], t);
    r := Play(s0, script + STALE_LOOK + [Complete(1)], t);
  }

  // --------------------------------------------------------------- two reconcilers

  /** One reconciler has seen the new bid, then the old bid is synchronised and a second one sees that. */
  lemma TwoLooks() returns (script: seq<Step>, t: State)
    ensures Leads(Begin(0, 5), script, t) && ByWorker(script, 1)
    ensures t.now == 301 && t.actions == [FIRST] && t.audits == map[]
    ensures ReconcilerOf(t, 1) == Observed(0, Observation(85, 300))
    ensures ReconcilerOf(t, 2) == Observed(0, Observation(100, 301))
  {
    hide Leads;
    var s0 := Begin(0, 5);
    var a, s := StoppedAfterCall();
    ObserveStep(s, 1, 0, Observation(85, 300));
    var s1 := TakeTurn(s, 1, Observed(0, Observation(85, 300)));
    TickStep(s1, 1);
    var s2 := s1.(now := s1.now + 1);
    SyncStep(s2, Campaign(1), 100);
    var s3 := Synced(s2, Campaign(1), 100);
    ObserveStep(s3, 2, 0, Observation(100, 301));
    t := TakeTurn(s3, 2, Observed(0, Observation(100, 301)));
    Chain(s0, a, s, [Observe(1, 0)], s1);
    Chain(s0, a + [Observe(1, 0)], s1, [Tick(1)], s2);
    Chain(s0, a + [Observe(1, 0)] + [Tick(1)], s2, [Sync(Campaign(1), 100)], s3);
    Chain(s0, a + [Observe(1, 0)] + [Tick(1)] + [Sync(Campaign(1), 100)], s3, [Observe(2, 0)], t);
    script := a + [Observe(1, 0)] + [Tick(1)] + [Sync(Campaign(1), 100)] + [Observe(2, 0)];
  }

  /**
    The worker has stopped and cannot end its action: the first reconciler logs what it saw, the second logs otherwise, and the
    first resolves the action. The action is applied and its log entry says not applied.
  */
  lemma TwoReconcilersDisagree() returns (r: Run, t: State)
    ensures IsRun(r) && OneWorker(r, 1) && t == r.states[|r.steps|]
    ensures |t.actions| == 1 && t.actions[0].status.Applied? && t.actions[0].evidence.Some?
    ensures 0 in t.audits && t.audits[0].status.NotApplied? && !Agrees(t, 0)
  {
    hide Leads;
    var script, s := TwoLooks();
    UpsertStep(s, 1);
    var s1 := AfterUpsert(s, 1);
    UpsertStep(s1, 2);
    var s2 := AfterUpsert(s1, 2);
    ResolveStep(s2, 1);
    t := AfterResolve(s2, 1);
    var s0 := Begin(0, 5);
    Chain(s0, script, s, [AuditReconciled(1)], s1);
    Chain(s0, script + [AuditReconciled(1)], s1, [AuditReconciled(2)], s2);
    Chain(s0, script + [AuditReconciled(1)] + [AuditReconciled(2)], s2, [Resolve(1)], t);
    script := script + [AuditReconciled(1)] + [AuditReconciled(2)] + [Resolve(1)];
    r := Play(s0, script, t);
    forall k | 0 <= k < |r.steps| ensures Actor(r.steps[k]).Some? ==> Actor(r.steps[k]) == Some(1) {
      assert r.steps[k] in script;
    }
  }
}
