/**
  The live write protocol of the bid automation as a state machine: any number of workers
  and of reconcilers, the operator, the clock and the synchronisation interleave step by step, a worker
  or a reconciler may stop between any two steps, and the marketplace may answer, refuse or stay silent.

  A step is one SQL statement, one marketplace call or one change of the world. The statements are
  those of internal/repository/sqlc/wb_ads_controls_manual.go, each taken to be atomic. One
  workspace is modelled; times are seconds.
*/
module WriteProtocol {
  import opened Numeric
  import opened Strategy
  import opened BidEngine

  const SECONDS_PER_DAY := 86400
  const MOSCOW_OFFSET := 10800
  const RECONCILIATION_DELAY := 300

  // ------------------------------------------------------------------------ data

  /** What a bid belongs to: a campaign, or one product of it, at one placement. */
  datatype Target = Target(campaign: nat, product: Option<nat>, placement: string)

  /** A campaign-wide action and a product action of the same campaign and placement overlap. */
  predicate Overlaps(a: Target, b: Target) {
    && a.campaign == b.campaign
    && a.placement == b.placement
    && (a.product.None? || b.product.None? || a.product == b.product)
  }

  datatype Observation = Observation(bid: int, at: int)

  datatype Status = Pending | Unknown | Applied | Failed | Blocked | NotApplied | Superseded

  predicate Unresolved(s: Status) {
    s.Pending? || s.Unknown?
  }

  /** The statuses that use up the workspace's daily allowance. */
  predicate Charged(s: Status) {
    s.Pending? || s.Unknown? || s.Applied?
  }

  /** A decision on its way to the marketplace, with the limits of the strategy that made it. */
  datatype Plan = Plan(
    target: Target,
    strategy: nat,
    oldBid: int,
    newBid: int,
    observedAt: int,
    cooldownMinutes: int,
    maxChangesPerDay: int
  )

  /** The observation a claim is made for; the unique index allows one action per key. */
  datatype Key = Key(target: Target, oldBid: int, observedAt: int)

  function KeyOf(p: Plan): Key {
    Key(p.target, p.oldBid, p.observedAt)
  }

  /**
    A row of the action table. The last three fields are history: when the action guard passed, the
    cap configured at the claim, and the observation that a reconciliation used.
  */
  datatype Action = Action(
    plan: Plan,
    createdAt: int,
    status: Status,
    guardAt: int,
    cap: int,
    evidence: Option<Observation>
  )

  /** The row of the user-facing change log that belongs to an action. */
  datatype Audit = Audit(status: Status, createdAt: int)

  datatype Outcome = WbApplied | WbFailed | WbUnknown

  function Recorded(o: Outcome): Status {
    match o
    case WbApplied => Applied
    case WbFailed => Failed
    case WbUnknown => Unknown
  }

  datatype Settings = Settings(enabled: bool, hold: bool, cap: int)

  predicate AllowsWrites(s: Settings) {
    s.enabled && !s.hold && s.cap > 0
  }

  /** Where a worker stands between the decision and the end of the binding. */
  datatype Phase =
    | Idle
    | Decided(plan: Plan)
    | Guarded(plan: Plan, guardAt: int)
    | Clear(plan: Plan, guardAt: int)
    | Ready(plan: Plan, guardAt: int, cap: int, windowAt: int)
    | Claimed(id: nat, windowAt: int)
    | SettingsReloaded(id: nat, windowAt: int)
    | Reloaded(id: nat, windowAt: int)
    | CapReloaded(id: nat, windowAt: int, cap: int)
    | Leased(id: nat)
    | Written(id: nat, outcome: Outcome)
    | Released(id: nat, outcome: Outcome)
    | Audited(id: nat, outcome: Outcome)

  datatype ReconcilerPhase =
    | Waiting
    | Observed(id: nat, obs: Observation)
    | AuditWritten(id: nat, obs: Observation)

  datatype Write = Write(id: nat, worker: nat, at: int)

  datatype State = State(
    now: int,
    settings: Settings,
    active: set<nat>,                        // strategies that are switched on
    observed: map<Target, Observation>,      // latest synchronised bids
    synced: set<(Target, Observation)>,      // every bid ever synchronised
    actions: seq<Action>,
    audits: map<nat, Audit>,                 // by index of the action
    lease: Option<nat>,                      // the worker that holds the workspace lock
    workers: map<nat, Phase>,
    reconcilers: map<nat, ReconcilerPhase>,
    writes: seq<Write>                       // calls sent to the marketplace
  )

  function PhaseOf(s: State, w: nat): Phase {
    if w in s.workers then s.workers[w] else Idle
  }

  function Move(s: State, w: nat, p: Phase): State {
    s.(workers := s.workers[w := p])
  }

  function ReconcilerOf(s: State, c: nat): ReconcilerPhase {
    if c in s.reconcilers then s.reconcilers[c] else Waiting
  }

  function TakeTurn(s: State, c: nat, p: ReconcilerPhase): State {
    s.(reconcilers := s.reconcilers[c := p])
  }

  /** Ends the transaction that holds the workspace lock, if this worker has one. */
  function Unlock(s: State, w: nat): State {
    s.(lease := if s.lease == Some(w) then None else s.lease)
  }

  function WithStatus(s: State, id: nat, status: Status): State
    requires id < |s.actions|
  {
    s.(actions := s.actions[id := s.actions[id].(status := status)])
  }

  // --------------------------------------------------------------------- queries

  ghost predicate HasUnresolved(s: State, t: Target) {
    exists i | 0 <= i < |s.actions| :: Unresolved(s.actions[i].status) && Overlaps(s.actions[i].plan.target, t)
  }

  ghost predicate KeyTaken(s: State, k: Key) {
    exists i | 0 <= i < |s.actions| :: KeyOf(s.actions[i].plan) == k
  }

  function MoscowDay(t: int): int {
    (t + MOSCOW_OFFSET) / SECONDS_PER_DAY
  }

  /** The charged actions created on one Moscow day. */
  ghost function ChargedOn(s: State, day: int): set<nat> {
    set i: nat | i < |s.actions| && Charged(s.actions[i].status) && MoscowDay(s.actions[i].createdAt) == day
  }

  /** Whether a logged change counts against a target, given the products the guard looks at. */
  predicate Affects(changed: Target, t: Target, products: set<nat>) {
    && changed.placement == t.placement
    && match changed.product
       case None => changed.campaign == t.campaign
       case Some(p) => products == {} || p in products
  }

  ghost function RecentChanges(s: State, t: Target, products: set<nat>, since: int): set<nat> {
    set i | i in s.audits && i < |s.actions| && s.audits[i].status.Applied? && s.audits[i].createdAt >= since
            && Affects(s.actions[i].plan.target, t, products)
  }

  ghost predicate GuardPasses(s: State, p: Plan, products: set<nat>) {
    && (p.cooldownMinutes > 0 ==> RecentChanges(s, p.target, products, s.now - 60 * p.cooldownMinutes) == {})
    && (p.maxChangesPerDay > 0 ==>
          |RecentChanges(s, p.target, products, s.now - SECONDS_PER_DAY)| < p.maxChangesPerDay)
  }

  /** The products a guard looks at: the bound product, or those linked to the campaign. */
  predicate ProductsFor(t: Target, products: set<nat>) {
    t.product.Some? ==> products == {t.product.value}
  }

  /** Newer than the claim and than the observation the decision was made from. */
  predicate Fresh(a: Action, obs: Observation) {
    obs.at > a.createdAt && obs.at > a.plan.observedAt
  }

  function ReconciledStatus(p: Plan, actualBid: int): Status {
    if actualBid == p.newBid then Applied
    else if actualBid == p.oldBid then NotApplied
    else Superseded
  }

  // ----------------------------------------------------------------------- steps

  datatype Step =
    | Tick(seconds: nat)
    | ChangeSettings(settings: Settings)
    | ChangeStrategies(active: set<nat>)
    | Sync(target: Target, bid: int)
    | Decide(w: nat, target: Target, strategy: nat, kind: Kind, params: Params, ctx: BidContext)
    | Guard(w: nat, products: set<nat>)
    | CheckUnresolved(w: nat)
    | ReadCap(w: nat)
    | Claim(w: nat)
    | ReloadSettings(w: nat)
    | ReloadStrategy(w: nat)
    | RereadCap(w: nat)
    | BlockClaim(w: nat)
    | TakeLease(w: nat)
    | Call(w: nat, outcome: Outcome)
    | ReleaseLease(w: nat)
    | RecordAudit(w: nat)
    | Complete(w: nat)
    | Stop(w: nat)
    | Observe(c: nat, id: nat)
    | AuditReconciled(c: nat)
    | Resolve(c: nat)
    | StopReconciler(c: nat)

  ghost predicate Enabled(s: State, step: Step) {
    match step
    case Tick(_) => true
    // The lease excludes settings updates, and claims, while it is held.
    case ChangeSettings(_) => s.lease.None?
    case ChangeStrategies(_) => true
    case Sync(_, bid) => bid > 0
    case Decide(w, target, _, kind, params, ctx) =>
      && PhaseOf(s, w).Idle?
      && target in s.observed && ctx.currentBid == s.observed[target].bid
      && WellFormed(params, ctx) && CalculateBid(kind, params, ctx).Some?
    case Guard(w, products) =>
      && PhaseOf(s, w).Decided?
      && ProductsFor(PhaseOf(s, w).plan.target, products) && GuardPasses(s, PhaseOf(s, w).plan, products)
    case CheckUnresolved(w) => PhaseOf(s, w).Guarded? && !HasUnresolved(s, PhaseOf(s, w).plan.target)
    case ReadCap(w) => PhaseOf(s, w).Clear? && AllowsWrites(s.settings)
    case Claim(w) => PhaseOf(s, w).Ready? && s.lease.None?
    case ReloadSettings(w) => PhaseOf(s, w).Claimed? && AllowsWrites(s.settings)
    case ReloadStrategy(w) =>
      && PhaseOf(s, w).SettingsReloaded? && PhaseOf(s, w).id < |s.actions|
      && s.actions[PhaseOf(s, w).id].plan.strategy in s.active
    case RereadCap(w) => PhaseOf(s, w).Reloaded? && AllowsWrites(s.settings)
    case BlockClaim(w) =>
      var p := PhaseOf(s, w);
      (p.Claimed? || p.SettingsReloaded? || p.Reloaded? || p.CapReloaded?) && p.id < |s.actions|
    case TakeLease(w) =>
      && PhaseOf(s, w).CapReloaded? && s.lease.None?
      && PhaseOf(s, w).id < |s.actions| && s.actions[PhaseOf(s, w).id].status.Pending?
      && s.settings.enabled && !s.settings.hold
      && var effective := Min(s.settings.cap, PhaseOf(s, w).cap);
         effective > 0 && |ChargedOn(s, MoscowDay(PhaseOf(s, w).windowAt))| <= effective
    case Call(w, _) => PhaseOf(s, w).Leased?
    case ReleaseLease(w) => PhaseOf(s, w).Written?
    case RecordAudit(w) => PhaseOf(s, w).Released?
    case Complete(w) => PhaseOf(s, w).Audited? && PhaseOf(s, w).id < |s.actions|
    case Stop(_) => true
    case Observe(c, id) =>
      && ReconcilerOf(s, c).Waiting?
      && id < |s.actions| && Unresolved(s.actions[id].status)
      && s.actions[id].createdAt + RECONCILIATION_DELAY <= s.now
      && s.actions[id].plan.target in s.observed
      && Fresh(s.actions[id], s.observed[s.actions[id].plan.target])
    case AuditReconciled(c) => ReconcilerOf(s, c).Observed? && ReconcilerOf(s, c).id < |s.actions|
    case Resolve(c) => ReconcilerOf(s, c).AuditWritten? && ReconcilerOf(s, c).id < |s.actions|
    case StopReconciler(_) => true
  }

  /** The reconciler's first update: the log entry of an unresolved action shows what was observed. */
  function AfterUpsert(s: State, c: nat): State
    requires ReconcilerOf(s, c).Observed? && ReconcilerOf(s, c).id < |s.actions|
  {
    var r := ReconcilerOf(s, c);
    if !Unresolved(s.actions[r.id].status) then TakeTurn(s, c, Waiting)
    else
      var status := ReconciledStatus(s.actions[r.id].plan, r.obs.bid);
      var createdAt := if r.id in s.audits then s.audits[r.id].createdAt else s.now;
      TakeTurn(s, c, AuditWritten(r.id, r.obs)).(audits := s.audits[r.id := Audit(status, createdAt)])
  }

  /** The reconciler's second update: an action that is still unresolved is resolved. */
  function AfterResolve(s: State, c: nat): State
    requires ReconcilerOf(s, c).AuditWritten? && ReconcilerOf(s, c).id < |s.actions|
  {
    var r := ReconcilerOf(s, c);
    var a := s.actions[r.id];
    if !Unresolved(a.status) then TakeTurn(s, c, Waiting)
    else
      var resolved := a.(status := ReconciledStatus(a.plan, r.obs.bid), evidence := Some(r.obs));
      TakeTurn(s, c, Waiting).(actions := s.actions[r.id := resolved])
  }

  /** The claim statement: refused, recorded as blocked, or recorded as pending. */
  ghost function AfterClaim(s: State, w: nat): State
    requires PhaseOf(s, w).Ready?
  {
    var p := PhaseOf(s, w);
    if HasUnresolved(s, p.plan.target) || KeyTaken(s, KeyOf(p.plan)) then Move(s, w, Idle)
    else
      var effective := Min(s.settings.cap, p.cap);
      var admitted := s.settings.enabled && !s.settings.hold && effective > 0
                      && |ChargedOn(s, MoscowDay(p.windowAt))| < effective;
      var action := Action(p.plan, s.now, if admitted then Pending else Blocked, p.guardAt, s.settings.cap, None);
      Move(s, w, if admitted then Claimed(|s.actions|, p.windowAt) else Idle).(actions := s.actions + [action])
  }

  ghost function Do(s: State, step: Step): State
    requires Enabled(s, step)
  {
    match step
    case Tick(seconds) => s.(now := s.now + seconds)
    case ChangeSettings(settings) => s.(settings := settings)
    case ChangeStrategies(active) => s.(active := active)
    case Sync(target, bid) =>
      var obs := Observation(bid, s.now);
      s.(observed := s.observed[target := obs], synced := s.synced + {(target, obs)})
    case Decide(w, target, strategy, kind, params, ctx) =>
      var d := CalculateBid(kind, params, ctx).value;
      Move(s, w, Decided(Plan(target, strategy, d.oldBid, d.newBid, s.observed[target].at,
                              Merged(params).cooldownMinutes, Merged(params).maxChangesPerDay)))
    case Guard(w, _) => Move(s, w, Guarded(PhaseOf(s, w).plan, s.now))
    case CheckUnresolved(w) => Move(s, w, Clear(PhaseOf(s, w).plan, PhaseOf(s, w).guardAt))
    case ReadCap(w) => Move(s, w, Ready(PhaseOf(s, w).plan, PhaseOf(s, w).guardAt, s.settings.cap, s.now))
    case Claim(w) => AfterClaim(s, w)
    case ReloadSettings(w) => Move(s, w, SettingsReloaded(PhaseOf(s, w).id, PhaseOf(s, w).windowAt))
    case ReloadStrategy(w) => Move(s, w, Reloaded(PhaseOf(s, w).id, PhaseOf(s, w).windowAt))
    case RereadCap(w) => Move(s, w, CapReloaded(PhaseOf(s, w).id, PhaseOf(s, w).windowAt, s.settings.cap))
    case BlockClaim(w) =>
      var id := PhaseOf(s, w).id;
      Move(if s.actions[id].status.Pending? then WithStatus(s, id, Blocked) else s, w, Idle)
    case TakeLease(w) => Move(s, w, Leased(PhaseOf(s, w).id)).(lease := Some(w))
    case Call(w, outcome) =>
      Move(s, w, Written(PhaseOf(s, w).id, outcome)).(writes := s.writes + [Write(PhaseOf(s, w).id, w, s.now)])
    case ReleaseLease(w) => Unlock(Move(s, w, Released(PhaseOf(s, w).id, PhaseOf(s, w).outcome)), w)
    case RecordAudit(w) =>
      var p := PhaseOf(s, w);
      if p.id in s.audits then Move(s, w, Idle)
      else Move(s, w, Audited(p.id, p.outcome)).(audits := s.audits[p.id := Audit(Recorded(p.outcome), s.now)])
    case Complete(w) =>
      var p := PhaseOf(s, w);
      Move(if s.actions[p.id].status.Pending? then WithStatus(s, p.id, Recorded(p.outcome)) else s, w, Idle)
    case Stop(w) => Unlock(Move(s, w, Idle), w)
    case Observe(c, id) => TakeTurn(s, c, Observed(id, s.observed[s.actions[id].plan.target]))
    case AuditReconciled(c) => AfterUpsert(s, c)
    case Resolve(c) => AfterResolve(s, c)
    case StopReconciler(c) => TakeTurn(s, c, Waiting)
  }

  // ------------------------------------------------------------------------ runs

  ghost predicate Initial(s: State) {
    && s.actions == [] && s.audits == map[] && s.writes == [] && s.workers == map[]
    && s.lease.None? && s.reconcilers == map[] && s.observed == map[] && s.synced == {}
  }

  datatype Run = Run(states: seq<State>, steps: seq<Step>)

  ghost predicate IsRun(r: Run) {
    && |r.states| == |r.steps| + 1
    && Initial(r.states[0])
    && forall i | 0 <= i < |r.steps| ::
         Enabled(r.states[i], r.steps[i]) && r.states[i + 1] == Do(r.states[i], r.steps[i])
  }

  /** The action a worker is carrying, once it has claimed one. */
  function Carried(p: Phase): Option<nat> {
    match p
    case Claimed(id, _) => Some(id)
    case SettingsReloaded(id, _) => Some(id)
    case Reloaded(id, _) => Some(id)
    case CapReloaded(id, _, _) => Some(id)
    case Leased(id) => Some(id)
    case Written(id, _) => Some(id)
    case Released(id, _) => Some(id)
    case Audited(id, _) => Some(id)
    case _ => None
  }

  predicate BeforeCall(p: Phase) {
    p.Claimed? || p.SettingsReloaded? || p.Reloaded? || p.CapReloaded? || p.Leased?
  }

  predicate Planning(p: Phase) {
    p.Decided? || p.Guarded? || p.Clear? || p.Ready?
  }

  /** The worker that takes a step, if a worker does. */
  function Actor(step: Step): Option<nat> {
    match step
    case Decide(w, _, _, _, _, _) => Some(w)
    case Guard(w, _) => Some(w)
    case CheckUnresolved(w) => Some(w)
    case ReadCap(w) => Some(w)
    case Claim(w) => Some(w)
    case ReloadSettings(w) => Some(w)
    case ReloadStrategy(w) => Some(w)
    case RereadCap(w) => Some(w)
    case BlockClaim(w) => Some(w)
    case TakeLease(w) => Some(w)
    case Call(w, _) => Some(w)
    case ReleaseLease(w) => Some(w)
    case RecordAudit(w) => Some(w)
    case Complete(w) => Some(w)
    case Stop(w) => Some(w)
    case _ => None
  }
}
