/** The planner and the executor together: what a plan does to a network, its rollback takes back. */
module PlanUndo {
  import opened Wrappers
  import opened Netfilter
  import opened Capture
  import opened Capability
  import opened Plan
  import opened PlanBuilder
  import opened PlanReady
  import opened KernelState
  import opened Executor

  /** The plan is one the planner builds for this policy and these capabilities. */
  ghost predicate Built(
    plan: NetworkPlan, policy: CapturePolicy, capabilities: CapabilityReport, scope: Option<seq<string>>, ipv6: Ipv6Handling)
  {
    IsTproxyPlan(plan, policy, capabilities, scope, ipv6) || IsTunPlan(plan, policy, capabilities, scope, ipv6)
  }

  function PiecesOf(plan: NetworkPlan, policy: CapturePolicy, scope: Option<seq<string>>, ipv6: Ipv6Handling): seq<Piece>
  {
    if plan.mode == TproxyMode && policy.inboundPort.Some? then
      TproxyPieces(plan.generation, plan.slot, policy, plan.allocation, policy.inboundPort.value, scope,
                   plan.forwardingInterfaces, ipv6)
    else
      TunPieces(plan.generation, plan.slot, policy, plan.allocation, scope, ipv6)
  }

  /** Every plan the planner builds can be applied to, and taken back from, every network that is free for it. */
  lemma BuiltIsReady(
    n: Network, plan: NetworkPlan, policy: CapturePolicy, capabilities: CapabilityReport, scope: Option<seq<string>>,
    ipv6: Ipv6Handling)
    requires Built(plan, policy, capabilities, scope, ipv6) && Free(n, plan.slot, plan.allocation)
    ensures plan.steps == StepsOf(PiecesOf(plan, policy, scope, ipv6))
    ensures Ready(n, PiecesOf(plan, policy, scope, ipv6))
  {
    hide TproxyPieces, TunPieces, StepsOf, Ready, Free;
    if plan.mode == TproxyMode {
      TproxyReady(n, plan.generation, plan.slot, policy, plan.allocation, policy.inboundPort.value, scope,
                  plan.forwardingInterfaces, ipv6);
    } else {
      TunReady(n, plan.generation, plan.slot, policy, plan.allocation, scope, ipv6);
    }
  }

  /** The network holds exactly the first `completed` pieces. */
  ghost predicate Holds(n: Network, start: Network, pieces: seq<Piece>, completed: nat) {
    completed <= |pieces| && n == Installed(start, pieces[..completed])
  }

  lemma NothingToRollBack(n: Network, steps: seq<Step>, script: seq<Fate>)
    ensures RollbackRun(n, steps, 0, script).remaining == 0
  {
  }

  /** Calls for the rollback of a receipt up to `attempts` times, with any command failing along the way. */
  method RollBackRepeatedly(
    executor: NetworkExecutor, generation: nat, slot: Slot, steps: seq<Step>, receipt: ApplyReceipt, attempts: nat,
    ghost start: Network, ghost pieces: seq<Piece>) returns (undone: bool)
    requires Ready(start, pieces) && steps == StepsOf(pieces)
    requires receipt.generation == generation && receipt.slot == slot
    requires Resumable(start, pieces, receipt.completedSteps, executor.backend.network)
    modifies executor.backend, receipt
    ensures Resumable(start, pieces, receipt.completedSteps, executor.backend.network)
    ensures receipt.completedSteps <= old(receipt.completedSteps)
    ensures undone ==> executor.backend.network == start
    ensures attempts > 0 && AllSucceed(old(executor.backend.script))
              && old(Holds(executor.backend.network, start, pieces, receipt.completedSteps)) ==>
            undone
  {
    hide Ready, Installed, Respond, RollbackRun;
    undone := false;
    ghost var easy :=
      AllSucceed(executor.backend.script) && Holds(executor.backend.network, start, pieces, receipt.completedSteps);
    for k := 0 to attempts
      invariant easy && k == 0 ==>
        AllSucceed(executor.backend.script) && Holds(executor.backend.network, start, pieces, receipt.completedSteps)
      invariant easy && k > 0 ==> undone && receipt.completedSteps == 0
      invariant receipt.completedSteps <= old(receipt.completedSteps)
      invariant Resumable(start, pieces, receipt.completedSteps, executor.backend.network)
      invariant undone ==> executor.backend.network == start
    {
      RollbackRunResumable(start, pieces, receipt.completedSteps, executor.backend.network, executor.backend.script);
      if easy && k == 0 {
        FavourableCallRestores(start, pieces, receipt.completedSteps, executor.backend.network, executor.backend.script);
      }
      NothingToRollBack(executor.backend.network, steps, executor.backend.script);
      var r := executor.RollbackSteps(generation, slot, steps, receipt);
      undone := r.Ok?;
    }
  }

  /**
   * Applies a built plan and then calls for its rollback.  Whenever the last word was success, the network is
   * exactly the one it started from, however many commands failed before; and if none fails it is success.
   */
  method ApplyAndRollBack(
    executor: NetworkExecutor, plan: NetworkPlan, policy: CapturePolicy, ghost capabilities: CapabilityReport,
    ghost scope: Option<seq<string>>, ghost ipv6: Ipv6Handling, attempts: nat) returns (undone: bool)
    requires Built(plan, policy, capabilities, scope, ipv6) && Free(executor.backend.network, plan.slot, plan.allocation)
    modifies executor.backend
    ensures undone ==> executor.backend.network == old(executor.backend.network)
    ensures attempts > 0 && AllSucceed(old(executor.backend.script)) ==> undone
  {
    hide Built, PiecesOf, Ready, Installed, StepsOf, Free;
    ghost var start, pieces := executor.backend.network, PiecesOf(plan, policy, scope, ipv6);
    BuiltIsReady(start, plan, policy, capabilities, scope, ipv6);
    var applied, _ := executor.ApplySteps(plan.generation, plan.slot, plan.steps, pieces);
    if applied.Err? {
      return applied.error.ApplyFailed?;
    }
    assert pieces[..|pieces|] == pieces;
    undone := RollBackRepeatedly(
      executor, plan.generation, plan.slot, plan.steps, applied.value, attempts, start, pieces);
  }
}
