/**
  ReconcileStaleBidActions as the loop it is: it goes through a list of stale actions taken once,
  while the workers that own them may still log, complete or block them, other passes over the same
  actions may run, and any statement may fail.
*/
module Reconciliation {
  import opened Numeric
  import opened WriteProtocol
  import opened WriteSafety

  /** The two tables a reconciliation works on. */
  datatype Table = Table(actions: seq<Action>, audits: map<nat, Audit>)

  /** What the owner of an action, or another pass that has read its bid, may do between two statements. */
  datatype Interference =
    | Logs(outcome: Outcome)
    | Completes(outcome: Outcome)
    | Blocks
    | OtherLogs(obs: Observation)
    | OtherResolves(obs: Observation)

  /** The last synchronised bid of an action's target, if it can be loaded. */
  datatype Reading = Unavailable | Available(obs: Observation)

  /** Everything outside the reconciler that decides what happens to one listed action. */
  datatype Turn = Turn(
    reading: Reading,
    beforeAudit: seq<Interference>,
    auditFails: bool,
    beforeUpdate: seq<Interference>,
    updateFails: bool
  )

  datatype Verdict = Deferred | Overtaken | Resolved(status: Status)

  datatype Summary = Summary(examined: nat, applied: nat, notApplied: nat, superseded: nat, deferred: nat)

  // ------------------------------------------------------------------ statements

  function LogStatus(t: Table, id: nat, status: Status, now: int): Table {
    t.(audits := t.audits[id := Audit(status, if id in t.audits then t.audits[id].createdAt else now)])
  }

  function Settle(t: Table, id: nat, status: Status, obs: Observation): Table
    requires id < |t.actions|
  {
    t.(actions := t.actions[id := t.actions[id].(status := status, evidence := Some(obs))])
  }

  function Interfere(t: Table, id: nat, x: Interference, now: int): Table
    requires id < |t.actions|
  {
    match x
    case Logs(o) => if id in t.audits then t else t.(audits := t.audits[id := Audit(Recorded(o), now)])
    case Completes(o) =>
      if t.actions[id].status.Pending?
      then t.(actions := t.actions[id := t.actions[id].(status := Recorded(o))])
      else t
    case Blocks =>
      if t.actions[id].status.Pending? then t.(actions := t.actions[id := t.actions[id].(status := Blocked)]) else t
    case OtherLogs(obs) =>
      if Unresolved(t.actions[id].status) && Fresh(t.actions[id], obs)
      then LogStatus(t, id, ReconciledStatus(t.actions[id].plan, obs.bid), now)
      else t
    case OtherResolves(obs) =>
      if Unresolved(t.actions[id].status) && Fresh(t.actions[id], obs)
      then Settle(t, id, ReconciledStatus(t.actions[id].plan, obs.bid), obs)
      else t
  }

  function Meanwhile(t: Table, id: nat, xs: seq<Interference>, now: int): (r: Table)
    requires id < |t.actions|
    ensures |r.actions| == |t.actions|
  {
    if xs == [] then t else Interfere(Meanwhile(t, id, xs[..|xs| - 1], now), id, xs[|xs| - 1], now)
  }

  // ------------------------------------------------------------------- one action

  function AfterTurn(t: Table, id: nat, turn: Turn, now: int): (Table, Verdict)
    requires id < |t.actions|
  {
    var t1 := Meanwhile(t, id, turn.beforeAudit, now);
    if turn.reading.Unavailable? || !Fresh(t.actions[id], turn.reading.obs) then (t1, Deferred)
    else
      var status := ReconciledStatus(t.actions[id].plan, turn.reading.obs.bid);
      if turn.auditFails then (t1, Deferred)
      else if !Unresolved(t1.actions[id].status) then (t1, Overtaken)
      else
        var t2 := Meanwhile(LogStatus(t1, id, status, now), id, turn.beforeUpdate, now);
        if turn.updateFails then (t2, Deferred)
        else if !Unresolved(t2.actions[id].status) then (t2, Overtaken)
        else (Settle(t2, id, status, turn.reading.obs), Resolved(status))
  }

  function Count(s: Summary, v: Verdict): Summary {
    match v
    case Deferred => s.(deferred := s.deferred + 1)
    case Overtaken => s
    case Resolved(status) =>
      match status
      case Applied => s.(applied := s.applied + 1)
      case NotApplied => s.(notApplied := s.notApplied + 1)
      case Superseded => s.(superseded := s.superseded + 1)
      case _ => s
  }

  /** What interference and a turn leave alone: every other row, and the claim of the row itself. */
  ghost predicate OnlyTouches(t: Table, u: Table, id: nat) {
    && |u.actions| == |t.actions|
    && (forall i | 0 <= i < |t.actions| && i != id :: u.actions[i] == t.actions[i])
    && (id < |t.actions| ==> u.actions[id] == t.actions[id].(status := u.actions[id].status, evidence := u.actions[id].evidence))
    && (forall i: nat | i != id :: i in u.audits <==> i in t.audits)
    && (forall i: nat | i != id && i in t.audits :: u.audits[i] == t.audits[i])
  }

  /** A resolved row: its evidence is fresh, and its status is what the evidence shows. */
  ghost predicate SettledBy(t: Table, id: nat, obs: Observation) {
    && id < |t.actions|
    && t.actions[id].evidence == Some(obs) && Fresh(t.actions[id], obs)
    && t.actions[id].status == ReconciledStatus(t.actions[id].plan, obs.bid)
  }

  lemma {:induction false} MeanwhileTouches(t: Table, id: nat, xs: seq<Interference>, now: int)
    requires id < |t.actions| && t.actions[id].evidence.None?
    ensures var u := Meanwhile(t, id, xs, now);
            && OnlyTouches(t, u, id)
            && (Unresolved(u.actions[id].status) ==> u.actions[id].evidence.None?)
            && (id in t.audits ==> id in u.audits)
            && (u.actions[id].evidence.Some? ==>
                  OtherResolves(u.actions[id].evidence.value) in xs && SettledBy(u, id, u.actions[id].evidence.value))
    decreases |xs|
  {
    if xs != [] {
      MeanwhileTouches(t, id, xs[..|xs| - 1], now);
    }
  }

  /** What the last of other passes' log entries for an action shows, if there is one. */
  function LastShown(a: Action, xs: seq<Interference>): Option<Status> {
    if xs == [] then None
    else
      var x := xs[|xs| - 1];
      if x.OtherLogs? && Fresh(a, x.obs) then Some(ReconciledStatus(a.plan, x.obs.bid)) else LastShown(a, xs[..|xs| - 1])
  }

  /** As long as the action is open, its log entry says what the last pass that logged has seen. */
  lemma {:induction false} MeanwhileShows(t: Table, id: nat, xs: seq<Interference>, now: int)
    requires id < |t.actions| && t.actions[id].evidence.None? && id in t.audits
    requires Unresolved(Meanwhile(t, id, xs, now).actions[id].status)
    ensures var u := Meanwhile(t, id, xs, now);
            && id in u.audits
            && u.audits[id].status == (if LastShown(t.actions[id], xs).Some? then LastShown(t.actions[id], xs).value else t.audits[id].status)
    decreases |xs|
  {
    if xs != [] {
      MeanwhileTouches(t, id, xs[..|xs| - 1], now);
      MeanwhileShows(t, id, xs[..|xs| - 1], now);
    }
  }

  /** No other pass has the last word about the log between the two updates, or it says the same. */
  predicate KeepsLog(a: Action, turn: Turn, status: Status) {
    LastShown(a, turn.beforeUpdate).None? || LastShown(a, turn.beforeUpdate) == Some(status)
  }

  predicate Happens(turn: Turn, x: Interference) {
    x in turn.beforeAudit || x in turn.beforeUpdate
  }

  /** What a turn that resolved its action leaves behind. */
  ghost predicate ResolvedHere(u: Table, id: nat, turn: Turn) {
    && id < |u.actions| && turn.reading.Available? && SettledBy(u, id, turn.reading.obs)
    && id in u.audits
    && (u.audits[id].status == u.actions[id].status <==> KeepsLog(u.actions[id], turn, u.actions[id].status))
  }

  lemma SameClaimShows(a: Action, b: Action, xs: seq<Interference>)
    requires a.plan == b.plan && a.createdAt == b.createdAt
    ensures LastShown(a, xs) == LastShown(b, xs)
  {
  }

  lemma TurnOutcome(t: Table, id: nat, turn: Turn, now: int)
    requires id < |t.actions| && Unresolved(t.actions[id].status) && t.actions[id].evidence.None?
    ensures var (u, v) := AfterTurn(t, id, turn, now);
            && OnlyTouches(t, u, id)
            && (v.Resolved? ==> v.status == u.actions[id].status && ResolvedHere(u, id, turn))
            && (!v.Resolved? && u.actions[id].evidence.Some? ==>
                  Happens(turn, OtherResolves(u.actions[id].evidence.value)) && SettledBy(u, id, u.actions[id].evidence.value))
            && (v.Overtaken? ==> !Unresolved(u.actions[id].status))
  {
    var t1 := Meanwhile(t, id, turn.beforeAudit, now);
    MeanwhileTouches(t, id, turn.beforeAudit, now);
    var (u, v) := AfterTurn(t, id, turn, now);
    if turn.reading.Available? && Fresh(t.actions[id], turn.reading.obs) && Unresolved(t1.actions[id].status) {
      var status := ReconciledStatus(t.actions[id].plan, turn.reading.obs.bid);
      var logged := LogStatus(t1, id, status, now);
      MeanwhileTouches(logged, id, turn.beforeUpdate, now);
      if Unresolved(Meanwhile(logged, id, turn.beforeUpdate, now).actions[id].status) {
        MeanwhileShows(logged, id, turn.beforeUpdate, now);
        SameClaimShows(logged.actions[id], u.actions[id], turn.beforeUpdate);
      }
    }
  }

  // --------------------------------------------------------------------- the loop

  function Pass(t: Table, listed: seq<nat>, turns: seq<Turn>, now: int): (r: (Table, Summary))
    requires |turns| == |listed| && forall k | 0 <= k < |listed| :: listed[k] < |t.actions|
    ensures |r.0.actions| == |t.actions|
    decreases |listed|
  {
    if listed == [] then (t, Summary(0, 0, 0, 0, 0))
    else
      var n := |listed| - 1;
      var (u, s) := Pass(t, listed[..n], turns[..n], now);
      var (w, v) := AfterTurn(u, listed[n], turns[n], now);
      (w, Count(s, v).(examined := s.examined + 1))
  }

  lemma PassStep(t: Table, listed: seq<nat>, turns: seq<Turn>, now: int, k: nat)
    requires |turns| == |listed| && k < |listed| && forall k | 0 <= k < |listed| :: listed[k] < |t.actions|
    ensures var (u, s) := Pass(t, listed[..k], turns[..k], now);
            var (w, v) := AfterTurn(u, listed[k], turns[k], now);
            Pass(t, listed[..k + 1], turns[..k + 1], now) == (w, Count(s, v).(examined := s.examined + 1))
  {
    hide AfterTurn;
    assert listed[..k + 1][..k] == listed[..k] && turns[..k + 1][..k] == turns[..k];
  }

  class Store {
    var table: Table

    method UpsertReconciledChange(id: nat, status: Status, now: int, fails: bool) returns (updated: bool)
      requires id < |table.actions|
      modifies this
      ensures updated == (!fails && Unresolved(old(table).actions[id].status))
      ensures table == if updated then LogStatus(old(table), id, status, now) else old(table)
    {
      updated := !fails && Unresolved(table.actions[id].status);
      if updated {
        table := LogStatus(table, id, status, now);
      }
    }

    method ReconcileAction(id: nat, status: Status, obs: Observation, fails: bool) returns (updated: bool)
      requires id < |table.actions|
      modifies this
      ensures updated == (!fails && Unresolved(old(table).actions[id].status))
      ensures table == if updated then Settle(old(table), id, status, obs) else old(table)
    {
      updated := !fails && Unresolved(table.actions[id].status);
      if updated {
        table := Settle(table, id, status, obs);
      }
    }

    /** The body of the loop: what becomes of one listed action. */
    method ReconcileOne(id: nat, turn: Turn, now: int) returns (v: Verdict)
      requires id < |table.actions|
      modifies this
      ensures (table, v) == AfterTurn(old(table), id, turn, now)
    {
      var action := table.actions[id];
      table := Meanwhile(table, id, turn.beforeAudit, now);
      if turn.reading.Unavailable? || !Fresh(action, turn.reading.obs) {
        return Deferred;
      }
      var status := ReconciledStatus(action.plan, turn.reading.obs.bid);
      var logged := UpsertReconciledChange(id, status, now, turn.auditFails);
      if turn.auditFails {
        return Deferred;
      }
      if !logged {
        return Overtaken;
      }
      table := Meanwhile(table, id, turn.beforeUpdate, now);
      var updated := ReconcileAction(id, status, turn.reading.obs, turn.updateFails);
      if turn.updateFails {
        return Deferred;
      }
      v := if updated then Resolved(status) else Overtaken;
    }

    method ReconcileStaleBidActions(listed: seq<nat>, turns: seq<Turn>, now: int) returns (summary: Summary)
      requires |turns| == |listed| && forall k | 0 <= k < |listed| :: listed[k] < |table.actions|
      modifies this
      ensures (table, summary) == Pass(old(table), listed, turns, now)
    {
      hide AfterTurn;
      var applied, notApplied, superseded, deferred := 0, 0, 0, 0;
      for k := 0 to |listed|
        invariant |table.actions| == |old(table).actions|
        invariant (table, Summary(k, applied, notApplied, superseded, deferred))
               == Pass(old(table), listed[..k], turns[..k], now)
      {
        PassStep(old(table), listed, turns, now, k);
        var v := ReconcileOne(listed[k], turns[k], now);
        if v.Deferred? {
          deferred := deferred + 1;
        } else if v == Resolved(Applied) {
          applied := applied + 1;
        } else if v == Resolved(NotApplied) {
          notApplied := notApplied + 1;
        } else if v == Resolved(Superseded) {
          superseded := superseded + 1;
        }
      }
      assert listed[..|listed|] == listed && turns[..|listed|] == turns;
      summary := Summary(|listed|, applied, notApplied, superseded, deferred);
    }
  }

  // ---------------------------------------------------------------- what it keeps

  /** The list the loop works through: distinct, unresolved, not reconciled before. */
  ghost predicate Listable(t: Table, listed: seq<nat>) {
    && (forall k | 0 <= k < |listed| ::
          listed[k] < |t.actions| && Unresolved(t.actions[listed[k]].status) && t.actions[listed[k]].evidence.None?)
    && (forall j, k | 0 <= j < k < |listed| :: listed[j] != listed[k])
  }

  /** The listed actions that the pass itself resolved. */
  ghost function Ours(t: Table, listed: seq<nat>, turns: seq<Turn>, now: int): set<nat>
    requires |turns| == |listed| && forall k | 0 <= k < |listed| :: listed[k] < |t.actions|
    decreases |listed|
  {
    if listed == [] then {}
    else
      var n := |listed| - 1;
      var u := Pass(t, listed[..n], turns[..n], now).0;
      Ours(t, listed[..n], turns[..n], now)
        + if AfterTurn(u, listed[n], turns[n], now).1.Resolved? then {listed[n]} else {}
  }

  lemma {:induction false} OursAreListed(t: Table, listed: seq<nat>, turns: seq<Turn>, now: int)
    requires |turns| == |listed| && forall k | 0 <= k < |listed| :: listed[k] < |t.actions|
    ensures forall i | i in Ours(t, listed, turns, now) :: i in listed
    decreases |listed|
  {
    hide AfterTurn;
    if listed != [] {
      OursAreListed(t, listed[..|listed| - 1], turns[..|listed| - 1], now);
    }
  }

  ghost function WithStatusIn(t: Table, rows: set<nat>, status: Status): set<nat> {
    set i | i in rows && i < |t.actions| && t.actions[i].status == status
  }

  /** The listed rows are still untouched when their turn comes, and nothing outside the list ever is. */
  lemma {:induction false} PassTouchesListOnly(t: Table, listed: seq<nat>, turns: seq<Turn>, now: int)
    requires |turns| == |listed| && forall k | 0 <= k < |listed| :: listed[k] < |t.actions|
    requires forall k | 0 <= k < |listed| :: Unresolved(t.actions[listed[k]].status) && t.actions[listed[k]].evidence.None?
    requires forall j, k | 0 <= j < k < |listed| :: listed[j] != listed[k]
    ensures var u := Pass(t, listed, turns, now).0;
            && (forall i: nat | i < |t.actions| && i !in listed :: u.actions[i] == t.actions[i])
            && (forall i: nat | i !in listed && i in t.audits :: i in u.audits && u.audits[i] == t.audits[i])
            && (forall i: nat | i !in listed && i in u.audits :: i in t.audits)
    decreases |listed|
  {
    if listed != [] {
      var n := |listed| - 1;
      PassTouchesListOnly(t, listed[..n], turns[..n], now);
      var u := Pass(t, listed[..n], turns[..n], now).0;
      assert listed[n] !in listed[..n];
      assert listed == listed[..n] + [listed[n]];
      TurnOutcome(u, listed[n], turns[n], now);
    }
  }

  /**
    Every action the pass resolved carries the fresh evidence that the pass read and the status it shows,
    and the log says the same exactly if no other pass logged another status between the two updates. An
    action with evidence that the pass did not resolve was resolved by another pass, from evidence as good.
  */
  lemma {:induction false} PassSettles(t: Table, listed: seq<nat>, turns: seq<Turn>, now: int, k: nat)
    requires |turns| == |listed| && Listable(t, listed) && k < |listed|
    ensures var u := Pass(t, listed, turns, now).0;
            var a := u.actions[listed[k]];
            if listed[k] in Ours(t, listed, turns, now) then ResolvedHere(u, listed[k], turns[k])
            else a.evidence.Some? ==>
              Happens(turns[k], OtherResolves(a.evidence.value)) && SettledBy(u, listed[k], a.evidence.value)
    decreases |listed|
  {
    hide AfterTurn, KeepsLog, Happens;
    var n := |listed| - 1;
    var u := Pass(t, listed[..n], turns[..n], now).0;
    PassTouchesListOnly(t, listed[..n], turns[..n], now);
    OursAreListed(t, listed[..n], turns[..n], now);
    assert listed[n] !in listed[..n];
    TurnOutcome(u, listed[n], turns[n], now);
    if k < n {
      PassSettles(t, listed[..n], turns[..n], now, k);
    }
  }

  /** A row has evidence exactly if the pass resolved it, unless another pass resolves actions meanwhile. */
  lemma LonePassResolves(t: Table, listed: seq<nat>, turns: seq<Turn>, now: int, k: nat)
    requires |turns| == |listed| && Listable(t, listed) && k < |listed|
    requires forall obs :: !Happens(turns[k], OtherResolves(obs))
    ensures Pass(t, listed, turns, now).0.actions[listed[k]].evidence.Some? <==> listed[k] in Ours(t, listed, turns, now)
  {
    PassSettles(t, listed, turns, now, k);
  }

  /** The counters of a pass: how many rows of a set have each status. */
  ghost predicate Counted(t: Table, ours: set<nat>, s: Summary) {
    && s.applied == |WithStatusIn(t, ours, Applied)|
    && s.notApplied == |WithStatusIn(t, ours, NotApplied)|
    && s.superseded == |WithStatusIn(t, ours, Superseded)|
  }

  lemma CountsNext(u: Table, w: Table, ours: set<nat>, id: nat, s: Summary, v: Verdict)
    requires Counted(u, ours, s) && id !in ours && id < |u.actions| && OnlyTouches(u, w, id)
    requires v.Resolved? ==> v.status == w.actions[id].status
    ensures Counted(w, ours + if v.Resolved? then {id} else {}, Count(s, v).(examined := s.examined + 1))
  {
    NextResolved(u, w, ours, id, v, Applied);
    NextResolved(u, w, ours, id, v, NotApplied);
    NextResolved(u, w, ours, id, v, Superseded);
  }

  lemma CountsTurn(u: Table, ours: set<nat>, s: Summary, id: nat, turn: Turn, now: int)
    requires id < |u.actions| && Unresolved(u.actions[id].status) && u.actions[id].evidence.None?
    requires Counted(u, ours, s) && id !in ours
    ensures var (w, v) := AfterTurn(u, id, turn, now);
            Counted(w, ours + if v.Resolved? then {id} else {}, Count(s, v).(examined := s.examined + 1))
  {
    hide AfterTurn, OnlyTouches, ResolvedHere, SettledBy, Counted;
    var (w, v) := AfterTurn(u, id, turn, now);
    TurnOutcome(u, id, turn, now);
    CountsNext(u, w, ours, id, s, v);
  }

  lemma LastTurn(t: Table, listed: seq<nat>, turns: seq<Turn>, now: int)
    requires |turns| == |listed| > 0 && forall k | 0 <= k < |listed| :: listed[k] < |t.actions|
    ensures var n := |listed| - 1;
            var (u, s) := Pass(t, listed[..n], turns[..n], now);
            var (w, v) := AfterTurn(u, listed[n], turns[n], now);
            && Pass(t, listed, turns, now) == (w, Count(s, v).(examined := s.examined + 1))
            && Ours(t, listed, turns, now)
               == Ours(t, listed[..n], turns[..n], now) + if v.Resolved? then {listed[n]} else {}
  {
    hide AfterTurn;
  }

  lemma ShorterList(t: Table, listed: seq<nat>, n: nat)
    requires Listable(t, listed) && n < |listed|
    ensures Listable(t, listed[..n]) && listed[n] !in listed[..n]
    ensures listed[n] < |t.actions| && Unresolved(t.actions[listed[n]].status) && t.actions[listed[n]].evidence.None?
  {
  }

  /** The last action of the list is untouched before its turn. */
  lemma UntouchedBefore(t: Table, listed: seq<nat>, turns: seq<Turn>, now: int)
    requires |turns| == |listed| > 0 && Listable(t, listed)
    ensures var n := |listed| - 1;
            && Listable(t, listed[..n]) && listed[n] < |t.actions|
            && Unresolved(t.actions[listed[n]].status) && t.actions[listed[n]].evidence.None?
            && Pass(t, listed[..n], turns[..n], now).0.actions[listed[n]] == t.actions[listed[n]]
            && listed[n] !in Ours(t, listed[..n], turns[..n], now)
  {
    hide Pass, Ours;
    var n := |listed| - 1;
    ShorterList(t, listed, n);
    PassTouchesListOnly(t, listed[..n], turns[..n], now);
    OursAreListed(t, listed[..n], turns[..n], now);
  }

  /** The summary counts exactly the rows that the pass resolved each way, as the tables show them. */
  lemma {:induction false} SummaryCountsRows(t: Table, listed: seq<nat>, turns: seq<Turn>, now: int)
    requires |turns| == |listed| && Listable(t, listed)
    ensures Counted(Pass(t, listed, turns, now).0, Ours(t, listed, turns, now), Pass(t, listed, turns, now).1)
    decreases |listed|
  {
    if listed == [] {
      assert forall status :: WithStatusIn(t, {}, status) == {};
    } else {
      LastTurn(t, listed, turns, now);
      UntouchedBefore(t, listed, turns, now);
      hide AfterTurn, Counted, Count, Pass, Ours, Unresolved;
      var n := |listed| - 1;
      SummaryCountsRows(t, listed[..n], turns[..n], now);
      var (u, s) := Pass(t, listed[..n], turns[..n], now);
      CountsTurn(u, Ours(t, listed[..n], turns[..n], now), s, listed[n], turns[n], now);
    }
  }

  /** Resolved and deferred actions together are at most the examined ones, and all of them unless a worker or another pass was faster. */
  lemma {:induction false} SummaryAddsUp(t: Table, listed: seq<nat>, turns: seq<Turn>, now: int)
    requires |turns| == |listed| && forall k | 0 <= k < |listed| :: listed[k] < |t.actions|
    ensures var s := Pass(t, listed, turns, now).1;
            && s.examined == |listed|
            && s.applied + s.notApplied + s.superseded + s.deferred <= s.examined
            && ((forall k | 0 <= k < |listed| :: turns[k].beforeAudit == [] && turns[k].beforeUpdate == [])
                && Listable(t, listed)
                ==> s.applied + s.notApplied + s.superseded + s.deferred == s.examined)
    decreases |listed|
  {
    hide AfterTurn;
    if listed != [] {
      var n := |listed| - 1;
      var u := Pass(t, listed[..n], turns[..n], now).0;
      SummaryAddsUp(t, listed[..n], turns[..n], now);
      if Listable(t, listed) && forall k | 0 <= k < |listed| :: turns[k].beforeAudit == [] && turns[k].beforeUpdate == [] {
        PassTouchesListOnly(t, listed[..n], turns[..n], now);
        assert listed[n] !in listed[..n];
        UndisturbedTurn(u, listed[n], turns[n], now);
      }
    }
  }

  lemma UndisturbedTurn(t: Table, id: nat, turn: Turn, now: int)
    requires id < |t.actions| && Unresolved(t.actions[id].status) && turn.beforeAudit == [] && turn.beforeUpdate == []
    ensures var v := AfterTurn(t, id, turn, now).1;
            v.Deferred? || v == Resolved(Applied) || v == Resolved(NotApplied) || v == Resolved(Superseded)
  {
  }

  lemma NextResolved(u: Table, w: Table, ours: set<nat>, id: nat, v: Verdict, status: Status)
    requires id !in ours && id < |u.actions| && OnlyTouches(u, w, id)
    requires v.Resolved? ==> v.status == w.actions[id].status
    ensures |WithStatusIn(w, ours + if v.Resolved? then {id} else {}, status)|
         == |WithStatusIn(u, ours, status)| + (if v == Resolved(status) then 1 else 0)
  {
    OthersKeepStatus(u, w, ours, id, status);
    OneMoreRow(w, ours, id, status);
    hide WithStatusIn;
    assert ours + {} == ours;
  }

  lemma OneMoreRow(w: Table, ours: set<nat>, id: nat, status: Status)
    requires id !in ours && id < |w.actions|
    ensures |WithStatusIn(w, ours + {id}, status)|
         == |WithStatusIn(w, ours, status)| + (if w.actions[id].status == status then 1 else 0)
  {
    if w.actions[id].status == status {
      assert WithStatusIn(w, ours + {id}, status) == WithStatusIn(w, ours, status) + {id};
    } else {
      assert WithStatusIn(w, ours + {id}, status) == WithStatusIn(w, ours, status);
    }
  }

  lemma OthersKeepStatus(u: Table, w: Table, ours: set<nat>, id: nat, status: Status)
    requires id !in ours && OnlyTouches(u, w, id)
    ensures WithStatusIn(w, ours, status) == WithStatusIn(u, ours, status)
  {
  }

  // ------------------------------------------------------- failures and the protocol

  /**
    If the second update fails, the log already shows the reconciled status while the action is still
    unresolved, and the next undisturbed turn with the same reading brings the action in line.
  */
  lemma NextPassRepairs(t: Table, id: nat, turn: Turn, now: int, later: int)
    requires id < |t.actions| && Unresolved(t.actions[id].status) && t.actions[id].evidence.None?
    requires turn.reading.Available? && Fresh(t.actions[id], turn.reading.obs)
    requires turn.beforeAudit == [] && turn.beforeUpdate == [] && !turn.auditFails && turn.updateFails
    ensures var u := AfterTurn(t, id, turn, now).0;
            var (w, v) := AfterTurn(u, id, turn.(updateFails := false), later);
            && id in u.audits && u.actions == t.actions
            && u.audits[id].status == ReconciledStatus(t.actions[id].plan, turn.reading.obs.bid)
            && v.Resolved? && SettledBy(w, id, turn.reading.obs) && id in w.audits && w.audits[id] == u.audits[id]
            && w.audits[id].status == w.actions[id].status
  {
  }

  function TableOf(s: State): Table {
    Table(s.actions, s.audits)
  }

  /** An undisturbed turn is the reconciler's three steps of the write protocol. */
  lemma TurnIsThreeSteps(s: State, c: nat, id: nat)
    requires Enabled(s, Observe(c, id))
    ensures var s1 := Do(s, Observe(c, id));
            && Enabled(s1, AuditReconciled(c))
            && var s2 := Do(s1, AuditReconciled(c));
               && Enabled(s2, Resolve(c))
               && var turn := Turn(Available(s.observed[s.actions[id].plan.target]), [], false, [], false);
                  TableOf(Do(s2, Resolve(c))) == AfterTurn(TableOf(s), id, turn, s.now).0
  {
  }

  /** The interference that a step of the protocol is for the action it works on. */
  function AsInterference(s: State, step: Step): Option<(nat, Interference)> {
    match step
    case RecordAudit(w) =>
      if PhaseOf(s, w).Released? then Some((PhaseOf(s, w).id, Logs(PhaseOf(s, w).outcome))) else None
    case Complete(w) =>
      if PhaseOf(s, w).Audited? then Some((PhaseOf(s, w).id, Completes(PhaseOf(s, w).outcome))) else None
    case BlockClaim(w) => if Carried(PhaseOf(s, w)).Some? then Some((Carried(PhaseOf(s, w)).value, Blocks)) else None
    case AuditReconciled(c) =>
      if ReconcilerOf(s, c).Observed? then Some((ReconcilerOf(s, c).id, OtherLogs(ReconcilerOf(s, c).obs))) else None
    case Resolve(c) =>
      if ReconcilerOf(s, c).AuditWritten? then Some((ReconcilerOf(s, c).id, OtherResolves(ReconcilerOf(s, c).obs))) else None
    case _ => None
  }

  /** In every run, whatever a step changes in an existing row or its log entry is one of the interferences. */
  lemma StepsInterfere(r: Run, k: nat)
    requires IsRun(r) && k < |r.steps|
    ensures var s, t := r.states[k], r.states[k + 1];
            match AsInterference(s, r.steps[k])
            case Some((id, x)) => id < |s.actions| && TableOf(t) == Interfere(TableOf(s), id, x, s.now)
            case None => t.audits == s.audits && |t.actions| >= |s.actions| && t.actions[..|s.actions|] == s.actions
  {
    hide Enabled, Do, Interfere;
    var s, step := r.states[k], r.steps[k];
    InvAlways(r, k);
    assert CarriersDistinct(s) && ReconcilersSupported(s);
    hide Inv, CarriersDistinct, ReconcilersSupported;
    match step
    case RecordAudit(w) => RecordInterferes(s, w);
    case Complete(w) => CompleteInterferes(s, w);
    case BlockClaim(w) => BlockInterferes(s, w);
    case AuditReconciled(c) => UpsertInterferes(s, c);
    case Resolve(c) => ResolveInterferes(s, c);
    case _ => OthersLeaveRows(s, step);
  }

  lemma RecordInterferes(s: State, w: nat)
    requires Enabled(s, RecordAudit(w)) && CarriersDistinct(s)
    ensures PhaseOf(s, w).Released? && PhaseOf(s, w).id < |s.actions|
    ensures TableOf(Do(s, RecordAudit(w))) == Interfere(TableOf(s), PhaseOf(s, w).id, Logs(PhaseOf(s, w).outcome), s.now)
  {
    assert Carried(PhaseOf(s, w)) == Some(PhaseOf(s, w).id);
  }

  lemma CompleteInterferes(s: State, w: nat)
    requires Enabled(s, Complete(w))
    ensures PhaseOf(s, w).Audited? && PhaseOf(s, w).id < |s.actions|
    ensures TableOf(Do(s, Complete(w))) == Interfere(TableOf(s), PhaseOf(s, w).id, Completes(PhaseOf(s, w).outcome), s.now)
  {
  }

  lemma BlockInterferes(s: State, w: nat)
    requires Enabled(s, BlockClaim(w))
    ensures Carried(PhaseOf(s, w)).Some? && Carried(PhaseOf(s, w)).value < |s.actions|
    ensures TableOf(Do(s, BlockClaim(w))) == Interfere(TableOf(s), Carried(PhaseOf(s, w)).value, Blocks, s.now)
  {
  }

  lemma UpsertInterferes(s: State, c: nat)
    requires Enabled(s, AuditReconciled(c)) && ReconcilersSupported(s)
    ensures ReconcilerOf(s, c).Observed? && ReconcilerOf(s, c).id < |s.actions|
    ensures TableOf(Do(s, AuditReconciled(c)))
         == Interfere(TableOf(s), ReconcilerOf(s, c).id, OtherLogs(ReconcilerOf(s, c).obs), s.now)
  {
  }

  lemma ResolveInterferes(s: State, c: nat)
    requires Enabled(s, Resolve(c)) && ReconcilersSupported(s)
    ensures ReconcilerOf(s, c).AuditWritten? && ReconcilerOf(s, c).id < |s.actions|
    ensures TableOf(Do(s, Resolve(c)))
         == Interfere(TableOf(s), ReconcilerOf(s, c).id, OtherResolves(ReconcilerOf(s, c).obs), s.now)
  {
  }

  lemma OthersLeaveRows(s: State, step: Step)
    requires Enabled(s, step) && !step.RecordAudit? && !step.Complete? && !step.BlockClaim?
    requires !step.AuditReconciled? && !step.Resolve?
    ensures var t := Do(s, step);
            t.audits == s.audits && |t.actions| >= |s.actions| && t.actions[..|s.actions|] == s.actions
  {
    hide GuardPasses, HasUnresolved, KeyTaken, ChargedOn;
  }

  // -------------------------------------------------------------------- the list

  function ClampLimit(limit: int): (r: nat)
    ensures 0 < r <= 1000 && (0 < limit <= 1000 ==> r == limit) && (limit <= 0 || limit > 1000 ==> r == 500)
  {
    if limit <= 0 || limit > 1000 then 500 else limit
  }

  ghost predicate Stale(t: Table, id: nat, now: int) {
    id < |t.actions| && Unresolved(t.actions[id].status) && t.actions[id].createdAt <= now - RECONCILIATION_DELAY
  }

  /** The oldest stale actions in order of age, up to a limit. */
  ghost predicate IsStaleList(t: Table, now: int, limit: nat, listed: seq<nat>) {
    && |listed| <= limit
    && (forall k | 0 <= k < |listed| :: Stale(t, listed[k], now))
    && (forall j, k | 0 <= j < k < |listed| ::
          listed[j] != listed[k] && t.actions[listed[j]].createdAt <= t.actions[listed[k]].createdAt)
    && (forall id: nat | Stale(t, id, now) && id !in listed ::
          |listed| == limit && forall k | 0 <= k < |listed| :: t.actions[listed[k]].createdAt <= t.actions[id].createdAt)
  }

  ghost predicate AllGoesWell(t: Table, listed: seq<nat>, turns: seq<Turn>) {
    |turns| == |listed| && forall k | 0 <= k < |listed| ::
      && listed[k] < |t.actions|
      && turns[k].reading.Available? && Fresh(t.actions[listed[k]], turns[k].reading.obs)
      && turns[k].beforeAudit == [] && turns[k].beforeUpdate == [] && !turns[k].auditFails && !turns[k].updateFails
  }

  lemma GoodTurnResolves(t: Table, id: nat, turn: Turn, now: int)
    requires id < |t.actions| && Unresolved(t.actions[id].status)
    requires turn.reading.Available? && Fresh(t.actions[id], turn.reading.obs)
    requires turn.beforeAudit == [] && turn.beforeUpdate == [] && !turn.auditFails && !turn.updateFails
    ensures AfterTurn(t, id, turn, now).1.Resolved?
  {
  }

  /** With fresh readings and no failure, every listed action is resolved. */
  lemma {:induction false} PassResolvesAll(t: Table, listed: seq<nat>, turns: seq<Turn>, now: int, k: nat)
    requires Listable(t, listed) && AllGoesWell(t, listed, turns) && k < |listed|
    ensures Pass(t, listed, turns, now).0.actions[listed[k]].evidence.Some?
    decreases |listed|
  {
    hide AfterTurn;
    var n := |listed| - 1;
    var u := Pass(t, listed[..n], turns[..n], now).0;
    PassTouchesListOnly(t, listed[..n], turns[..n], now);
    assert listed[n] !in listed[..n];
    assert u.actions[listed[n]] == t.actions[listed[n]];
    TurnOutcome(u, listed[n], turns[n], now);
    if k < n {
      PassResolvesAll(t, listed[..n], turns[..n], now, k);
      assert listed[..n][k] == listed[k] != listed[n];
    } else {
      GoodTurnResolves(u, listed[n], turns[n], now);
    }
  }

  /** So a list shorter than the limit leaves no stale action behind: nothing is starved. */
  lemma ShortListLeavesNothing(t: Table, now: int, limit: nat, listed: seq<nat>, turns: seq<Turn>, id: nat)
    requires IsStaleList(t, now, limit, listed) && Listable(t, listed) && AllGoesWell(t, listed, turns)
    requires |listed| < limit
    ensures !Stale(Pass(t, listed, turns, now).0, id, now)
  {
    PassTouchesListOnly(t, listed, turns, now);
    if id in listed {
      var k: nat :| k < |listed| && listed[k] == id;
      PassResolvesAll(t, listed, turns, now, k);
      PassSettles(t, listed, turns, now, k);
    }
  }

  // ----------------------------------------------------------------------- five minutes

  /** A reconciler takes up an action exactly if it is open for five minutes and its bid was synchronised since. */
  lemma TakenUpIff(s: State, c: nat, id: nat)
    requires ReconcilerOf(s, c).Waiting? && id < |s.actions|
    ensures var a := s.actions[id];
            Enabled(s, Observe(c, id)) <==>
              && (a.status.Pending? || a.status.Unknown?) && s.now - a.createdAt >= 5 * 60
              && a.plan.target in s.observed
              && s.observed[a.plan.target].at > a.createdAt && s.observed[a.plan.target].at > a.plan.observedAt
  {
  }

  /** Whatever a reconciler works on, or has resolved, was claimed at least five minutes ago. */
  ghost predicate WorksOnOld(s: State) {
    && (forall c: nat | !ReconcilerOf(s, c).Waiting? && ReconcilerOf(s, c).id < |s.actions| ::
          s.now - s.actions[ReconcilerOf(s, c).id].createdAt >= 5 * 60)
    && (forall i | 0 <= i < |s.actions| && s.actions[i].evidence.Some? :: s.now - s.actions[i].createdAt >= 5 * 60)
  }

  lemma TurnsToOld(s: State, step: Step, c: nat)
    requires Enabled(s, step)
    ensures var p, q := ReconcilerOf(s, c), ReconcilerOf(Do(s, step), c);
            q.Waiting? || (!p.Waiting? && q.id == p.id) || (q.id < |s.actions| && s.now - s.actions[q.id].createdAt >= 5 * 60)
    ensures Do(s, step).now >= s.now
  {
    hide GuardPasses, HasUnresolved, KeyTaken, ChargedOn;
  }

  lemma StillWorksOnOld(s: State, step: Step, t: State)
    requires WorksOnOld(s) && RowsEvolve(s, t) && ReconcilersSupported(s) && t.now >= s.now
    requires forall c: nat ::
               var p, q := ReconcilerOf(s, c), ReconcilerOf(t, c);
               q.Waiting? || (!p.Waiting? && q.id == p.id) || (q.id < |s.actions| && s.now - s.actions[q.id].createdAt >= 5 * 60)
    ensures WorksOnOld(t)
  {
    forall i | 0 <= i < |t.actions| && t.actions[i].evidence.Some? ensures t.now - t.actions[i].createdAt >= 5 * 60 {
      assert i < |s.actions| ==> SameClaim(s.actions[i], t.actions[i]);
    }
  }

  /** So no run has an action that was reconciled in its first five minutes. */
  lemma {:induction false} ReconciledAfterFiveMinutes(r: Run, k: nat)
    requires IsRun(r) && k < |r.states|
    ensures WorksOnOld(r.states[k])
  {
    hide Enabled, Do;
    if k > 0 {
      var s, step := r.states[k - 1], r.steps[k - 1];
      ReconciledAfterFiveMinutes(r, k - 1);
      InvAlways(r, k - 1);
      StepMovesRows(s, step);
      assert ReconcilersSupported(s);
      hide Inv;
      TurnsToOld(s, step, 0);
      forall c: nat {
        TurnsToOld(s, step, c);
      }
      StillWorksOnOld(s, step, r.states[k]);
    }
  }
}
