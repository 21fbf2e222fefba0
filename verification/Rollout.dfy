/**
  The rollout of a strategy binding (internal/service/bid_evaluation_recorder.go): a binding earns
  live writes through a complete evaluation without a write, and loses them through a block.
*/
module Rollout {
  import opened Numeric

  datatype Stage = ShadowValidating | Live | Blocked | ManualHold

  datatype Mode = WantsLive | WantsShadow

  /** The persisted row of a binding. */
  datatype Row = Row(stage: Stage, mode: Mode)

  /** What the service may do to a row: a manual hold is out of its reach. */
  function SystemState(r: Row, to: Stage): Row {
    if r.stage.ManualHold? then r else r.(stage := to)
  }

  /** An operator's update, with the stage the handler had read before it wrote. */
  datatype Update = Update(seen: Stage, mode: Mode, hold: bool)

  function Updated(r: Row, u: Update): Row {
    Row(if u.hold then ManualHold
        else if u.seen.Live? && u.mode.WantsLive? then Live
        else ShadowValidating, u.mode)
  }

  function AfterUpdates(r: Row, us: seq<Update>): Row {
    if us == [] then r else Updated(AfterUpdates(r, us[..|us| - 1]), us[|us| - 1])
  }

  /** Every handler wrote while what it had read was still true. */
  ghost predicate Prompt(r: Row, us: seq<Update>) {
    forall k | 0 <= k < |us| :: us[k].seen == AfterUpdates(r, us[..k]).stage
  }

  // ------------------------------------------------------------------- evaluation

  /** How the evaluation of a binding ends; Abandoned covers errors that close nothing. */
  datatype Ending = MarkingBlock | PlainBlock | NoDecision | Decision | Abandoned

  /**
    One evaluation: whether the workspace allows live writes, whether the run could be recorded (a
    missing recorder ignores everything), and the operator's updates while it was under way.
  */
  datatype Evaluation = Evaluation(workspaceLive: bool, recorded: bool, during: seq<Update>, ending: Ending)

  /** The row an evaluation starts from: a blocked binding that wants to be live validates again. */
  function Begun(r: Row): Row {
    if r.stage.Blocked? && r.mode.WantsLive? then SystemState(r, ShadowValidating) else r
  }

  predicate Applies(r: Row, e: Evaluation) {
    e.workspaceLive && Begun(r).stage.Live?
  }

  /** A decision is written to the marketplace with permission and recorded as a shadow decision without it. */
  predicate Writes(r: Row, e: Evaluation) {
    e.ending.Decision? && Applies(r, e)
  }

  predicate ShadowDecides(r: Row, e: Evaluation) {
    e.ending.Decision? && !Applies(r, e)
  }

  predicate Marks(r: Row, e: Evaluation) {
    e.recorded && e.ending.MarkingBlock? && Begun(r).mode.WantsLive? && !Begun(r).stage.ManualHold?
  }

  predicate Promotes(r: Row, e: Evaluation) {
    && e.recorded && (e.ending.NoDecision? || ShadowDecides(r, e))
    && Begun(r).mode.WantsLive? && Begun(r).stage.ShadowValidating?
  }

  function AfterEvaluation(r: Row, e: Evaluation): Row {
    var row := AfterUpdates(Begun(r), e.during);
    if Marks(r, e) then SystemState(row, Blocked)
    else if Promotes(r, e) then SystemState(row, Live)
    else row
  }

  // --------------------------------------------------------------------- recorder

  datatype Outcome = OutNoDecision | OutBlocked | OutShadowDecision | OutApplied | OutFailed | OutUnknown

  class RolloutTable {
    var row: Row

    constructor (r: Row)
      ensures row == r
    {
      row := r;
    }

    method SetSystemState(to: Stage)
      modifies this
      ensures row == SystemState(old(row), to)
    {
      if !row.stage.ManualHold? {
        row := row.(stage := to);
      }
    }
  }

  // ---------------------------------------------------------------- cluster targets

  /**
    What a live attempt came to: whether the change was applied, how many errors it left behind (the call, the
    lease, the log entry and the completion can each fail), and whether it ends the loop (rate limit, daily cap).
  */
  datatype Live = Attempt(applied: bool, errors: nat, stops: bool)

  /** What becomes of one search query of a cluster campaign. */
  datatype ClusterTarget =
    | Withheld                               // a guardrail stops it before it is evaluated to its end
    | Erred
    | NoChange
    | Decided(shadowFails: bool, live: Live)

  datatype Tally = Tally(evaluated: nat, proposed: nat, applied: nat, errors: nat)

  const NOTHING := Tally(0, 0, 0, 0)

  function Plus(a: Tally, b: Tally): Tally {
    Tally(a.evaluated + b.evaluated, a.proposed + b.proposed, a.applied + b.applied, a.errors + b.errors)
  }

  function One(apply: bool, t: ClusterTarget): Tally {
    match t
    case Withheld => Tally(0, 0, 0, 0)
    case Erred => Tally(0, 0, 0, 1)
    case NoChange => Tally(1, 0, 0, 0)
    case Decided(shadowFails, live) =>
      if !apply then Tally(1, 1, 0, if shadowFails then 1 else 0)
      else Tally(1, 0, if live.applied then 1 else 0, live.errors)
  }

  predicate Stops(apply: bool, t: ClusterTarget) {
    apply && t.Decided? && t.live.stops
  }

  /** Some target has ended the loop. */
  predicate Stopped(apply: bool, targets: seq<ClusterTarget>) {
    exists i | 0 <= i < |targets| :: Stops(apply, targets[i])
  }

  /** The sum over the targets up to the first one that ends the loop. */
  function TallyOf(apply: bool, targets: seq<ClusterTarget>): Tally {
    if targets == [] then NOTHING
    else
      var n := |targets| - 1;
      if Stopped(apply, targets[..n]) then TallyOf(apply, targets[..n])
      else Plus(TallyOf(apply, targets[..n]), One(apply, targets[n]))
  }

  lemma NothingAdded(a: Tally)
    ensures Plus(a, NOTHING) == a
  {
  }

  lemma Associates(a: Tally, b: Tally, c: Tally)
    ensures Plus(Plus(a, b), c) == Plus(a, Plus(b, c))
  {
  }

  /** Counting a target in the fields and in the local counters is counting it once. */
  lemma AddsSeparately(fields: Tally, applied: nat, errors: nat, x: Tally)
    requires fields.applied == 0 == fields.errors
    ensures var y := Plus(fields, x);
            Tally(y.evaluated, y.proposed, applied + y.applied, errors + y.errors)
            == Plus(Tally(fields.evaluated, fields.proposed, applied, errors), x)
  {
  }

  lemma TallyNext(apply: bool, targets: seq<ClusterTarget>, i: nat)
    requires i < |targets| && !Stopped(apply, targets[..i])
    ensures TallyOf(apply, targets[..i + 1]) == Plus(TallyOf(apply, targets[..i]), One(apply, targets[i]))
    ensures Stopped(apply, targets[..i + 1]) <==> Stops(apply, targets[i])
  {
    hide Plus, One;
    assert targets[..i + 1][..i] == targets[..i];
    forall k | 0 <= k < i ensures targets[..i + 1][k] == targets[..i][k] {
    }
    assert targets[..i + 1][i] == targets[i];
  }

  /** What follows the target that ends the loop does not count. */
  lemma {:induction false} StopsThere(apply: bool, targets: seq<ClusterTarget>, i: nat)
    requires i < |targets| && Stopped(apply, targets[..i + 1])
    ensures TallyOf(apply, targets) == TallyOf(apply, targets[..i + 1]) && Stopped(apply, targets)
    decreases |targets|
  {
    hide Plus, One;
    var n := |targets| - 1;
    if i == n {
      assert targets[..i + 1] == targets;
    } else {
      assert targets[..n][..i + 1] == targets[..i + 1];
      StopsThere(apply, targets[..n], i);
      var k :| 0 <= k < n && Stops(apply, targets[..n][k]);
      assert Stops(apply, targets[k]);
    }
  }

  predicate FailsUnwritten(t: ClusterTarget) {
    t.Erred? || (t.Decided? && t.shadowFails)
  }

  predicate EvaluatedUnwritten(t: ClusterTarget) {
    t.NoChange? || t.Decided?
  }

  ghost predicate SomeFails(targets: seq<ClusterTarget>) {
    exists i | 0 <= i < |targets| :: FailsUnwritten(targets[i])
  }

  ghost predicate SomeEvaluated(targets: seq<ClusterTarget>) {
    exists i | 0 <= i < |targets| :: EvaluatedUnwritten(targets[i])
  }

  lemma OneMoreTarget(targets: seq<ClusterTarget>)
    requires targets != []
    ensures SomeFails(targets) <==> SomeFails(targets[..|targets| - 1]) || FailsUnwritten(targets[|targets| - 1])
    ensures SomeEvaluated(targets) <==> SomeEvaluated(targets[..|targets| - 1]) || EvaluatedUnwritten(targets[|targets| - 1])
  {
    var n := |targets| - 1;
    assert forall i | 0 <= i < n :: targets[..n][i] == targets[i];
  }

  /** Without writes the loop goes through all targets. */
  lemma {:induction false} UnwrittenTally(targets: seq<ClusterTarget>)
    ensures var sum := TallyOf(false, targets);
            && sum.applied == 0
            && (sum.errors > 0 <==> SomeFails(targets))
            && (sum.evaluated > 0 <==> SomeEvaluated(targets))
    decreases |targets|
  {
    hide SomeFails, SomeEvaluated;
    if targets == [] {
      NoTargets();
    } else {
      UnwrittenTally(targets[..|targets| - 1]);
      OneMoreTarget(targets);
    }
  }

  lemma NoTargets()
    ensures !SomeFails([]) && !SomeEvaluated([])
  {
  }

  datatype Completion = CompletedApplied | CompletedBlocked | CompletedShadow | CompletedNoChange

  class Recorder {
    const table: RolloutTable
    var seen: Row
    var outcome: Option<Outcome>     // set once, when the run is closed
    var fullyEvaluatedTargets: nat
    var proposedTargets: nat

    /** Reads the row, sends a blocked live binding back to validation and keeps what it then saw. */
    constructor (t: RolloutTable)
      modifies t
      ensures table == t && t.row == Begun(old(t.row)) && seen == t.row
      ensures outcome == None && fullyEvaluatedTargets == 0 && proposedTargets == 0
    {
      table, seen := t, t.row;
      outcome, fullyEvaluatedTargets, proposedTargets := None, 0, 0;
      new;
      if t.row.stage.Blocked? && t.row.mode.WantsLive? {
        t.SetSystemState(ShadowValidating);
      }
      seen := t.row;
    }

    method EvaluatedTarget()
      modifies this`fullyEvaluatedTargets
      ensures fullyEvaluatedTargets == old(fullyEvaluatedTargets) + 1
    {
      fullyEvaluatedTargets := fullyEvaluatedTargets + 1;
    }

    method ProposedTarget()
      modifies this`proposedTargets
      ensures proposedTargets == old(proposedTargets) + 1
    {
      proposedTargets := proposedTargets + 1;
    }

    method Finish(o: Outcome)
      modifies this`outcome
      ensures outcome == if old(outcome).Some? then old(outcome) else Some(o)
    {
      if outcome.None? {
        outcome := Some(o);
      }
    }

    method Block(markRollout: bool)
      modifies this`outcome, table
      ensures outcome == if old(outcome).Some? then old(outcome) else Some(OutBlocked)
      ensures table.row == if markRollout && seen.mode.WantsLive? && !seen.stage.ManualHold?
                           then SystemState(old(table.row), Blocked) else old(table.row)
    {
      if markRollout && seen.mode.WantsLive? && !seen.stage.ManualHold? {
        table.SetSystemState(Blocked);
      }
      Finish(OutBlocked);
    }

    method PromoteAfterValidation()
      modifies table
      ensures table.row == if seen.mode.WantsLive? && seen.stage.ShadowValidating?
                           then SystemState(old(table.row), Live) else old(table.row)
    {
      if !seen.mode.WantsLive? || !seen.stage.ShadowValidating? {
        return;
      }
      table.SetSystemState(Live);
    }

    method ReadyNoChange()
      modifies this`outcome, table
      ensures outcome == if old(outcome).Some? then old(outcome) else Some(OutNoDecision)
      ensures table.row == if seen.mode.WantsLive? && seen.stage.ShadowValidating?
                           then SystemState(old(table.row), Live) else old(table.row)
    {
      Finish(OutNoDecision);
      PromoteAfterValidation();
    }

    method TakeShadowDecision()
      modifies this`outcome, table
      ensures outcome == if old(outcome).Some? then old(outcome) else Some(OutShadowDecision)
      ensures table.row == if seen.mode.WantsLive? && seen.stage.ShadowValidating?
                           then SystemState(old(table.row), Live) else old(table.row)
    {
      Finish(OutShadowDecision);
      PromoteAfterValidation();
    }

    function ClusterCompletion(applied: int): Completion
      reads this
    {
      if applied > 0 then CompletedApplied
      else if fullyEvaluatedTargets == 0 then CompletedBlocked
      else if proposedTargets > 0 then CompletedShadow
      else CompletedNoChange
    }

    function Counters(applied: nat, errors: nat): Tally
      reads this
    {
      Tally(fullyEvaluatedTargets, proposedTargets, applied, errors)
    }

    /** The body of the loop over the targets of a cluster campaign. */
    method EvaluateTarget(apply: bool, target: ClusterTarget) returns (applied: nat, errors: nat, stop: bool)
      modifies this`fullyEvaluatedTargets, this`proposedTargets
      ensures Counters(applied, errors) == Plus(old(Counters(0, 0)), One(apply, target))
      ensures stop == Stops(apply, target)
    {
      applied, errors, stop := 0, 0, false;
      match target {
        case Withheld =>
        case Erred => errors := 1;
        case NoChange => EvaluatedTarget();
        case Decided(shadowFails, live) =>
          EvaluatedTarget();
          if !apply {
            errors := if shadowFails then 1 else 0;
            ProposedTarget();
          } else {
            applied := if live.applied then 1 else 0;
            errors := live.errors;
            stop := live.stops;
          }
      }
    }

    /** The loop over the targets of a cluster campaign, up to the target that ends it. */
    method EvaluateTargets(apply: bool, targets: seq<ClusterTarget>) returns (applied: nat, errors: nat)
      modifies this`fullyEvaluatedTargets, this`proposedTargets
      ensures Counters(applied, errors) == Plus(old(Counters(0, 0)), TallyOf(apply, targets))
    {
      hide Plus, One;
      applied, errors := 0, 0;
      NothingAdded(Counters(0, 0));
      ghost var start := Counters(0, 0);
      for i := 0 to |targets|
        invariant Counters(applied, errors) == Plus(start, TallyOf(apply, targets[..i])) && !Stopped(apply, targets[..i])
      {
        TallyNext(apply, targets, i);
        AddsSeparately(Counters(0, 0), applied, errors, One(apply, targets[i]));
        Associates(start, TallyOf(apply, targets[..i]), One(apply, targets[i]));
        var a, e, stop := EvaluateTarget(apply, targets[i]);
        applied, errors := applied + a, errors + e;
        if stop {
          StopsThere(apply, targets, i);
          return;
        }
      }
      assert targets[..|targets|] == targets;
    }

    /**
      A whole cluster evaluation. Without permission to write, a validating binding is promoted exactly if no
      target ended in an error and at least one was evaluated to its end.
    */
    method EvaluateClusters(apply: bool, targets: seq<ClusterTarget>)
      requires outcome.None? && fullyEvaluatedTargets == 0 && proposedTargets == 0
      modifies this, table
      ensures seen == old(seen)
      ensures !apply && seen == Row(ShadowValidating, WantsLive) && old(table.row).stage.ShadowValidating? ==>
                (table.row.stage.Live? <==> !SomeFails(targets) && SomeEvaluated(targets))
      ensures TallyOf(apply, targets).errors > 0 ==> table.row == old(table.row) && outcome == Some(OutFailed)
      ensures TallyOf(apply, targets).errors == 0 < TallyOf(apply, targets).applied ==>
                table.row == old(table.row) && outcome == Some(OutApplied)
    {
      hide SomeFails, SomeEvaluated, TallyOf;
      var applied, errors := EvaluateTargets(apply, targets);
      if !apply {
        UnwrittenTally(targets);
      }
      if errors > 0 {
        Finish(OutFailed);
      } else {
        CompleteClusters(applied);
      }
    }

    /**
      The end of a cluster campaign's evaluation: live is earned exactly when a validating binding
      evaluated some target completely and applied nothing.
    */
    method CompleteClusters(applied: int)
      requires outcome.None?
      modifies this`outcome, table
      ensures seen == Row(ShadowValidating, WantsLive) && old(table.row).stage.ShadowValidating? ==>
                (table.row.stage.Live? <==> applied <= 0 && fullyEvaluatedTargets > 0)
      ensures applied > 0 ==> table.row == old(table.row) && outcome == Some(OutApplied)
      ensures applied <= 0 && fullyEvaluatedTargets == 0 && seen.mode.WantsLive? && !seen.stage.ManualHold? ==>
                table.row == SystemState(old(table.row), Blocked)
    {
      match ClusterCompletion(applied) {
        case CompletedApplied => Finish(OutApplied);
        case CompletedBlocked => Block(true);
        case CompletedShadow => Finish(OutShadowDecision); PromoteAfterValidation();
        case CompletedNoChange => ReadyNoChange();
      }
    }
  }

  method ApplyUpdates(table: RolloutTable, us: seq<Update>)
    modifies table
    ensures table.row == AfterUpdates(old(table.row), us)
  {
    for k := 0 to |us|
      invariant table.row == AfterUpdates(old(table.row), us[..k])
    {
      assert us[..k + 1][..k] == us[..k];
      table.row := Updated(table.row, us[k]);
    }
    assert us[..|us|] == us;
  }

  /** The evaluation of one binding, from its beginning to its ending, with the operator at work meanwhile. */
  method EvaluateBinding(table: RolloutTable, e: Evaluation) returns (wrote: bool)
    modifies table
    ensures table.row == AfterEvaluation(old(table.row), e)
    ensures wrote == Writes(old(table.row), e)
  {
    var recorder := new Recorder(table);
    var apply := e.workspaceLive && recorder.seen.stage.Live?;
    ApplyUpdates(table, e.during);
    wrote := false;
    match e.ending {
      case MarkingBlock => if e.recorded { recorder.Block(true); }
      case PlainBlock => if e.recorded { recorder.Block(false); }
      case NoDecision => if e.recorded { recorder.ReadyNoChange(); }
      case Decision =>
        if !apply {
          if e.recorded { recorder.TakeShadowDecision(); }
        } else {
          wrote := true;
          if e.recorded { recorder.Finish(OutApplied); }
        }
      case Abandoned =>
    }
  }

  // ----------------------------------------------------------------------- runs

  datatype Event = Operator(update: Update) | Evaluated(evaluation: Evaluation)

  function AfterEvent(r: Row, event: Event): Row {
    match event
    case Operator(u) => Updated(r, u)
    case Evaluated(e) => AfterEvaluation(r, e)
  }

  function RowAfter(start: Row, events: seq<Event>): Row {
    if events == [] then start else AfterEvent(RowAfter(start, events[..|events| - 1]), events[|events| - 1])
  }

  lemma RowNext(start: Row, events: seq<Event>, j: nat)
    requires j < |events|
    ensures RowAfter(start, events[..j + 1]) == AfterEvent(RowAfter(start, events[..j]), events[j])
  {
    assert events[..j + 1][..j] == events[..j];
  }

  /** The operator's updates are prompt, between evaluations and during them. */
  ghost predicate Orderly(r: Row, event: Event) {
    match event
    case Operator(u) => u.seen == r.stage
    case Evaluated(e) => Prompt(Begun(r), e.during)
  }

  ghost predicate OrderlyRun(start: Row, events: seq<Event>) {
    forall k | 0 <= k < |events| :: Orderly(RowAfter(start, events[..k]), events[k])
  }

  /** An update that writes live because its handler had read live. */
  predicate LiveResave(u: Update) {
    u.seen.Live? && u.mode.WantsLive? && !u.hold
  }

  /** An event that makes any row live without validating it: its last word is a live re-save. */
  predicate Resaves(r: Row, event: Event) {
    match event
    case Operator(u) => LiveResave(u)
    case Evaluated(e) => e.during != [] && LiveResave(e.during[|e.during| - 1]) && !Marks(r, e)
  }

  /** A promotion that no hold has overtaken. */
  predicate Validates(r: Row, event: Event) {
    event.Evaluated? && Promotes(r, event.evaluation)
    && !(event.evaluation.during != [] && event.evaluation.during[|event.evaluation.during| - 1].hold)
  }

  /** The last update decides what the updates leave. */
  lemma LastUpdateDecides(r: Row, us: seq<Update>)
    requires us != []
    ensures AfterUpdates(r, us).stage.Live? <==> LiveResave(us[|us| - 1])
    ensures AfterUpdates(r, us).stage.ManualHold? <==> us[|us| - 1].hold
  {
  }

  /**
    Exactly when an event makes a row live that is not: a promotion that no hold has overtaken, or a live
    re-save by a handler that had read the row before it lost its live stage.
  */
  lemma BecomesLiveIff(r: Row, event: Event)
    requires !r.stage.Live?
    ensures AfterEvent(r, event).stage.Live? <==> Validates(r, event) || Resaves(r, event)
  {
    if event.Evaluated? && event.evaluation.during != [] {
      LastUpdateDecides(Begun(r), event.evaluation.during);
    }
  }

  /** A handler that wrote while what it had read was still true never re-saves a row that is not live. */
  lemma PromptUpdatesDoNotResave(r: Row, event: Event)
    requires Orderly(r, event) && !r.stage.Live?
    ensures !Resaves(r, event)
  {
    if event.Evaluated? && event.evaluation.during != [] {
      UpdatesNeverPromote(Begun(r), event.evaluation.during);
      LastUpdateDecides(Begun(r), event.evaluation.during);
    }
  }

  lemma {:induction false} UpdatesNeverPromote(r: Row, us: seq<Update>)
    requires Prompt(r, us)
    ensures AfterUpdates(r, us).stage.Live? ==> r.stage.Live?
    decreases |us|
  {
    if us != [] {
      var n := |us| - 1;
      forall k | 0 <= k < n ensures us[..n][k].seen == AfterUpdates(r, us[..n][..k]).stage {
        assert us[..n][..k] == us[..k];
      }
      UpdatesNeverPromote(r, us[..n]);
    }
  }

  /** In any run, between a row that is not live and a later live one lies the event that made it live. */
  lemma {:induction false} SomeEventMadeItLive(start: Row, events: seq<Event>, i: nat, k: nat) returns (j: nat)
    requires i <= k <= |events|
    requires !RowAfter(start, events[..i]).stage.Live? && RowAfter(start, events[..k]).stage.Live?
    ensures i <= j < k && !RowAfter(start, events[..j]).stage.Live?
    ensures Validates(RowAfter(start, events[..j]), events[j]) || Resaves(RowAfter(start, events[..j]), events[j])
    decreases k
  {
    var m := k - 1;
    assert events[..k][..m] == events[..m];
    if RowAfter(start, events[..m]).stage.Live? {
      j := SomeEventMadeItLive(start, events, i, m);
    } else {
      j := m;
      BecomesLiveIff(RowAfter(start, events[..m]), events[m]);
    }
  }

  /** A re-save as live of a binding that is not live any more. */
  ghost predicate StaleResave(r: Row, event: Event) {
    !r.stage.Live? && Resaves(r, event)
  }

  ghost predicate NoStaleResave(start: Row, events: seq<Event>, i: nat, k: nat)
    requires i <= k <= |events|
  {
    forall j | i <= j < k :: !StaleResave(RowAfter(start, events[..j]), events[j])
  }

  ghost predicate NoValidation(start: Row, events: seq<Event>, i: nat, k: nat)
    requires i <= k <= |events|
  {
    forall j | i <= j < k :: !Validates(RowAfter(start, events[..j]), events[j])
  }

  /**
    The exact condition: while nothing validates a binding that is not live, it stays without permission to
    write if and only if no stale re-save occurs.
  */
  lemma StaysUnwrittenIff(start: Row, events: seq<Event>, i: nat, k: nat)
    requires i <= k <= |events| && !RowAfter(start, events[..i]).stage.Live? && NoValidation(start, events, i, k)
    ensures (forall m | i <= m <= k :: !RowAfter(start, events[..m]).stage.Live?) <==> NoStaleResave(start, events, i, k)
  {
    hide RowAfter, AfterEvent, Validates, Resaves;
    if NoStaleResave(start, events, i, k) {
      forall m | i <= m <= k ensures !RowAfter(start, events[..m]).stage.Live? {
        if RowAfter(start, events[..m]).stage.Live? {
          var j := SomeEventMadeItLive(start, events, i, m);
          assert false;
        }
      }
    } else {
      var j :| i <= j < k && StaleResave(RowAfter(start, events[..j]), events[j]);
      RowNext(start, events, j);
      BecomesLiveIff(RowAfter(start, events[..j]), events[j]);
    }
  }

  /**
    After a block that marks the rollout, unless a stale re-save intervenes, no evaluation writes until a
    later one has been recorded to its end as a no-decision or a shadow decision, without writing; the
    writing evaluation begins after it.
  */
  lemma WriteAfterBlockNeedsValidation(start: Row, events: seq<Event>, i: nat, k: nat) returns (j: nat)
    requires i < k < |events| && NoStaleResave(start, events, i + 1, k)
    requires events[i].Evaluated? && Marks(RowAfter(start, events[..i]), events[i].evaluation)
    requires events[k].Evaluated? && Writes(RowAfter(start, events[..k]), events[k].evaluation)
    ensures i < j < k && events[j].Evaluated? && events[j].evaluation.recorded
    ensures events[j].evaluation.ending.NoDecision? || ShadowDecides(RowAfter(start, events[..j]), events[j].evaluation)
    ensures !Applies(RowAfter(start, events[..j]), events[j].evaluation)
  {
    assert events[..i + 1][..i] == events[..i];
    j := SomeEventMadeItLive(start, events, i + 1, k);
  }

  /** A held binding is never written to and stays held until the operator says otherwise. */
  lemma HeldNeverWrites(r: Row, e: Evaluation)
    requires r.stage.ManualHold?
    ensures !Writes(r, e)
    ensures e.during == [] ==> AfterEvaluation(r, e) == r
  {
  }

  /** And after the hold is lifted the first write again comes only after a validation. */
  lemma WriteAfterHoldNeedsValidation(start: Row, events: seq<Event>, i: nat, k: nat) returns (j: nat)
    requires i <= k < |events| && NoStaleResave(start, events, i, k)
    requires RowAfter(start, events[..i]).stage.ManualHold?
    requires events[k].Evaluated? && Writes(RowAfter(start, events[..k]), events[k].evaluation)
    ensures i <= j < k && Validates(RowAfter(start, events[..j]), events[j])
    ensures !Writes(RowAfter(start, events[..j]), events[j].evaluation)
  {
    j := SomeEventMadeItLive(start, events, i, k);
  }

  /** Prompt operators never cause one, so both theorems hold whenever every update is prompt. */
  lemma PromptRunsHaveNoStaleResave(start: Row, events: seq<Event>, i: nat, k: nat)
    requires OrderlyRun(start, events) && i <= k <= |events|
    ensures NoStaleResave(start, events, i, k)
  {
    forall j | i <= j < k && !RowAfter(start, events[..j]).stage.Live?
      ensures !StaleResave(RowAfter(start, events[..j]), events[j])
    {
      PromptUpdatesDoNotResave(RowAfter(start, events[..j]), events[j]);
    }
  }

  // ------------------------------------------------------------ the desired mode

  /** A live binding is one that its operator wants live. */
  predicate Wanted(r: Row) {
    r.stage.Live? ==> r.mode.WantsLive?
  }

  /**
    Exactly when an evaluation keeps that: a promotion decided on the row seen at the beginning undoes
    an operator's switch to shadow mode that came in meanwhile.
  */
  lemma EvaluationKeepsWantedIff(r: Row, e: Evaluation)
    requires Wanted(r)
    ensures Wanted(AfterEvaluation(r, e)) <==>
              !(Promotes(r, e) && AfterUpdates(Begun(r), e.during).mode.WantsShadow?
                && !AfterUpdates(Begun(r), e.during).stage.ManualHold?)
  {
    UpdatesKeepWanted(Begun(r), e.during);
  }

  lemma {:induction false} UpdatesKeepWanted(r: Row, us: seq<Update>)
    requires Wanted(r)
    ensures Wanted(AfterUpdates(r, us))
    decreases |us|
  {
    if us != [] {
      UpdatesKeepWanted(r, us[..|us| - 1]);
    }
  }

  /** The concrete case: switched to shadow during its validating evaluation, the binding writes in the next one. */
  lemma ShadowBindingWrites()
    ensures var r := Row(ShadowValidating, WantsLive);
            var first := Evaluation(true, true, [Update(ShadowValidating, WantsShadow, false)], NoDecision);
            var second := Evaluation(true, true, [], Decision);
            && Wanted(r) && OrderlyRun(r, [Evaluated(first), Evaluated(second)])
            && RowAfter(r, [Evaluated(first)]).mode.WantsShadow? && Writes(RowAfter(r, [Evaluated(first)]), second)
  {
    var r := Row(ShadowValidating, WantsLive);
    var u := Update(ShadowValidating, WantsShadow, false);
    var first := Evaluation(true, true, [u], NoDecision);
    var second := Evaluation(true, true, [], Decision);
    var events := [Evaluated(first), Evaluated(second)];
    assert AfterUpdates(r, [u]) == Updated(AfterUpdates(r, []), u) == Row(ShadowValidating, WantsShadow);
    assert RowAfter(r, []) == r && RowAfter(r, [Evaluated(first)]) == AfterEvent(RowAfter(r, []), Evaluated(first));
    assert RowAfter(r, [Evaluated(first)]) == Row(Live, WantsShadow);
    assert events[..0] == [] && events[..1] == [Evaluated(first)];
    assert [u][..0] == [];
  }

  /** A run in which a re-save of a binding that was read as live lifts a block, and the next evaluation writes. */
  lemma StaleResaveLiftsBlock()
    ensures var r := Row(Live, WantsLive);
            var block := Evaluated(Evaluation(true, true, [], MarkingBlock));
            var resave := Operator(Update(Live, WantsLive, false));
            && Marks(r, block.evaluation) && RowAfter(r, [block]).stage.Blocked?
            && NoValidation(r, [block, resave], 1, 2)
            && Writes(RowAfter(r, [block, resave]), Evaluation(true, true, [], Decision))
  {
    var r := Row(Live, WantsLive);
    var block := Evaluated(Evaluation(true, true, [], MarkingBlock));
    var resave := Operator(Update(Live, WantsLive, false));
    assert [block][..0] == [] && [block, resave][..1] == [block];
    assert RowAfter(r, [block]) == AfterEvent(RowAfter(r, []), block);
    assert RowAfter(r, [block, resave]) == AfterEvent(RowAfter(r, [block]), resave);
  }
}
