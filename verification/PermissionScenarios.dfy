/**
  A concrete history in which an operator's hold of a binding comes too late: the evaluation under way has
  taken its permission at the beginning and does not read the binding's row again.
*/
module PermissionScenarios {
  import opened Numeric
  import opened WriteProtocol
  import opened WriteScenarios
  import opened LivePermission
  import Rollout

  const BOUND := Binding(0, 1, None)
  const LIVE := Rollout.Row(Rollout.Live, Rollout.WantsLive)
  const HOLD := Rollout.Update(Rollout.Live, Rollout.WantsLive, true)

  /** A script of worker 1 for the bound campaign happens within a session that has permission. */
  lemma {:induction false} Follow(x: World, script: seq<Step>, t: State) returns (worlds: seq<World>)
    requires Leads(x.bids, script, t) && ByWorker(script, 1) && OnlyFor(script, Campaign(1))
    requires 1 in x.sessions && Permitted(x.sessions[1]) && x.sessions[1].binding == BOUND
    ensures |worlds| == |script| + 1 && worlds[0] == x
    ensures forall i | 0 <= i < |script| ::
              CanHappen(worlds[i], Steps(script[i])) && worlds[i + 1] == Result(worlds[i], Steps(script[i]))
    ensures forall i | 0 <= i <= |script| :: worlds[i].rows == x.rows && worlds[i].sessions == x.sessions
    decreases |script|
  {
    hide Enabled, Do, Permitted;
    if script == [] {
      worlds := [x];
    } else {
      assert script[0] in script;
      assert CanHappen(x, Steps(script[0]));
      var next := Result(x, Steps(script[0]));
      var rest := Follow(next, script[1..], t);
      worlds := [x] + rest;
    }
  }

  /** The world in which worker 1 has begun to evaluate the live binding and the operator has then put it on hold. */
  ghost function HeldWorld(): World {
    World(Begin(0, 5), map[BOUND := Rollout.Row(Rollout.ManualHold, Rollout.WantsLive)],
          map[1 := Session(BOUND, LIVE, true, true)])
  }

  lemma BeginsThenHeld()
    ensures var x := World(Begin(0, 5), map[BOUND := LIVE], map[]);
            && CanHappen(x, Begins(1, BOUND, true, true))
            && var y := Result(x, Begins(1, BOUND, true, true));
               CanHappen(y, Operates(BOUND, HOLD)) && Result(y, Operates(BOUND, HOLD)) == HeldWorld()
  {
    var x := World(Begin(0, 5), map[BOUND := LIVE], map[]);
    var y := Result(x, Begins(1, BOUND, true, true));
    assert y.rows == map[BOUND := LIVE] && y.sessions == map[1 := Session(BOUND, LIVE, true, true)];
    assert Result(y, Operates(BOUND, HOLD)).rows == HeldWorld().rows;
  }

  /** One worker: the binding is on hold, and the call is sent all the same. */
  lemma HeldBindingIsCalled() returns (h: History, k: nat)
    ensures IsHistory(h) && 1 < k < |h.happenings| && Holds(h.happenings[1], BOUND)
    ensures h.happenings[k] == Steps(Call(1, WbApplied)) && RowOf(h.worlds[k], BOUND).stage.ManualHold?
    ensures 1 in h.worlds[k].sessions && h.worlds[k].sessions[1].binding == BOUND
  {
    hide Enabled, Do, Leads, CanHappen, Result;
    var script, t := FirstCall();
    var x := World(Begin(0, 5), map[BOUND := LIVE], map[]);
    BeginsThenHeld();
    var y := Result(x, Begins(1, BOUND, true, true));
    var worlds := Follow(HeldWorld(), script, t);
    var steps := seq(|script|, i requires 0 <= i < |script| => Steps(script[i]));
    h := History([x, y] + worlds, [Begins(1, BOUND, true, true), Operates(BOUND, HOLD)] + steps);
    k := |script| + 1;
    assert h.worlds[k] == worlds[|script| - 1];
  }
}
