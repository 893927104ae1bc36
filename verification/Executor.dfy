/** Applying a plan step by step, rolling it back when a step fails, and resuming a rollback that was interrupted.

    The outside world is a script of fates: each command may succeed, report that its target is absent, or fail in
    some other way, and a failed command may or may not have taken effect. */
module Executor {
  import opened Wrappers
  import opened Netfilter
  import opened Plan
  import opened KernelState

  datatype CommandFailure = Spawn | Timeout | Output | Absent

  datatype Reply = Succeeded | Rejected | Failed(failure: CommandFailure)

  /** What the world answers to one command, and whether a failing command took effect. */
  datatype Fate = Fate(reply: Reply, took: bool)

  /** Success means the command took effect; absence means there was nothing to act on. */
  function Respond(n: Network, op: Operation, fate: Fate): (Reply, Network) {
    var done := Perform(n, op);
    if fate.reply == Succeeded || fate.reply == Failed(Absent) then
      if done.Some? then (Succeeded, done.value) else (if fate.reply == Succeeded then Rejected else fate.reply, n)
    else (fate.reply, if fate.took && done.Some? then done.value else n)
  }

  function NextFate(script: seq<Fate>): Fate {
    if script == [] then Fate(Succeeded, true) else script[0]
  }

  function LaterFates(script: seq<Fate>): seq<Fate> {
    if script == [] then [] else script[1..]
  }

  /** The fate of the command that comes after `k` others. */
  function FateAt(script: seq<Fate>, k: nat): Fate {
    if k < |script| then script[k] else Fate(Succeeded, true)
  }

  /** The fates that are left after `k` commands. */
  function After(script: seq<Fate>, k: nat): seq<Fate> {
    if k < |script| then script[k..] else []
  }

  lemma AfterNext(script: seq<Fate>, k: nat)
    ensures NextFate(After(script, k)) == FateAt(script, k)
    ensures LaterFates(After(script, k)) == After(script, k + 1)
  {
  }

  lemma AfterBoth(script: seq<Fate>, j: nat, k: nat)
    ensures After(After(script, j), k) == After(script, j + k)
    ensures FateAt(After(script, j), k) == FateAt(script, j + k)
  {
  }

  /** No command fails. */
  ghost predicate AllSucceed(script: seq<Fate>) {
    forall fate :: fate in script ==> fate.reply == Succeeded
  }

  /** A rollback counts as done when it succeeded or found nothing to undo. */
  predicate UndoDone(reply: Reply) {
    reply == Succeeded || reply == Failed(Absent)
  }

  /** The world does not stand in the way: the command takes effect if there is something to act on. */
  predicate Effective(fate: Fate) {
    UndoDone(fate.reply)
  }

  /** Undoing something that is there fails, and does not take effect either. */
  predicate Survives(fate: Fate) {
    !Effective(fate) && !fate.took
  }

  class Backend {
    var network: Network
    var script: seq<Fate>

    constructor (network: Network, script: seq<Fate>)
      ensures this.network == network && this.script == script
    {
      this.network := network;
      this.script := script;
    }

    method Execute(op: Operation) returns (reply: Reply)
      modifies this
      ensures reply == Respond(old(network), op, NextFate(old(script))).0
      ensures network == Respond(old(network), op, NextFate(old(script))).1
      ensures script == LaterFates(old(script))
    {
      var response := Respond(network, op, NextFate(script));
      reply := response.0;
      network := response.1;
      script := LaterFates(script);
    }
  }

  class ApplyReceipt {
    const generation: nat
    const slot: Slot
    var completedSteps: nat

    constructor (generation: nat, slot: Slot, completedSteps: nat)
      ensures this.generation == generation && this.slot == slot && this.completedSteps == completedSteps
    {
      this.generation := generation;
      this.slot := slot;
      this.completedSteps := completedSteps;
    }
  }

  datatype ExecutionError =
    | ApplyFailed(step: nat)
    | ApplyRollbackFailed(applyStep: nat, rollbackStep: nat)
    | RollbackFailed(step: nat)
    | ReceiptMismatch

  // ----- what a rollback that goes on after failures leaves behind -----

  /** The fate of the undo of step `i`, when `count` steps are undone from the last to the first. */
  function UndoFate(script: seq<Fate>, count: nat, i: nat): Fate
    requires i < count
  {
    FateAt(script, count - 1 - i)
  }

  /** All pieces are installed and undone from the last to the first, each undo meeting its own fate. */
  function Survivors(pieces: seq<Piece>, script: seq<Fate>): seq<Piece> {
    if pieces == [] then []
    else
      var n := |pieces| - 1;
      Survivors(pieces[..n], LaterFates(script)) + if Survives(NextFate(script)) then [pieces[n]] else []
  }

  /** The highest of `count` installed steps whose undo is not done. */
  function FirstUndone(count: nat, script: seq<Fate>): (step: Option<nat>)
    ensures step.Some? ==> step.value < count
  {
    if count == 0 then None
    else if !Effective(NextFate(script)) then Some(count - 1)
    else FirstUndone(count - 1, LaterFates(script))
  }

  /** What stays of the first `end` pieces, of which the last may never have been installed. */
  function Leftover(pieces: seq<Piece>, end: nat, present: bool, script: seq<Fate>): seq<Piece>
    requires 0 < end <= |pieces|
  {
    if present then Survivors(pieces[..end], script) else Survivors(pieces[..end - 1], LaterFates(script))
  }

  /** The failure that is reported; an undo that finds nothing is done only if the command says that it is absent. */
  function Reported(end: nat, present: bool, script: seq<Fate>): Option<nat>
    requires 0 < end
  {
    if present then FirstUndone(end, script)
    else if NextFate(script).reply == Failed(Absent) then FirstUndone(end - 1, LaterFates(script))
    else Some(end - 1)
  }

  lemma UndoFateLater(script: seq<Fate>, count: nat, i: nat)
    requires i < count
    ensures UndoFate(LaterFates(script), count, i) == UndoFate(script, count + 1, i)
  {
  }

  /** Every piece has its own undo: it stays exactly if that undo failed without taking effect. */
  lemma {:induction false} SurvivorsMean(pieces: seq<Piece>, script: seq<Fate>, p: Piece)
    ensures p in Survivors(pieces, script) <==>
      exists i :: 0 <= i < |pieces| && pieces[i] == p && Survives(UndoFate(script, |pieces|, i))
  {
    if pieces != [] {
      var n := |pieces| - 1;
      SurvivorsMean(pieces[..n], LaterFates(script), p);
      hide Survives, UndoFate;
      forall i | 0 <= i < n
        ensures UndoFate(LaterFates(script), n, i) == UndoFate(script, n + 1, i)
      {
        UndoFateLater(script, n, i);
      }
      UndoLast(script, n);
      assert forall i :: 0 <= i < n ==> pieces[..n][i] == pieces[i];
    }
  }

  lemma UndoLast(script: seq<Fate>, n: nat)
    ensures UndoFate(script, n + 1, n) == NextFate(script)
  {
  }

  /** When the undo of one step fails, at most that step stays. */
  lemma {:induction false} OnlyFailureStays(pieces: seq<Piece>, script: seq<Fate>, f: nat)
    requires f < |pieces|
    requires forall i :: 0 <= i < |pieces| && i != f ==> Effective(UndoFate(script, |pieces|, i))
    ensures Survivors(pieces, script) == if Survives(UndoFate(script, |pieces|, f)) then [pieces[f]] else []
  {
    var n := |pieces| - 1;
    UndoLast(script, n);
    forall i | 0 <= i < n
      ensures UndoFate(LaterFates(script), n, i) == UndoFate(script, n + 1, i)
    {
      UndoFateLater(script, n, i);
    }
    if f < n {
      OnlyFailureStays(pieces[..n], LaterFates(script), f);
    } else {
      NoneSurvive(pieces[..n], LaterFates(script));
    }
  }

  lemma {:induction false} NoneSurvive(pieces: seq<Piece>, script: seq<Fate>)
    requires forall i :: 0 <= i < |pieces| ==> Effective(UndoFate(script, |pieces|, i))
    ensures Survivors(pieces, script) == []
  {
    if pieces != [] {
      var n := |pieces| - 1;
      UndoLast(script, n);
      forall i | 0 <= i < n
        ensures UndoFate(LaterFates(script), n, i) == UndoFate(script, n + 1, i)
      {
        UndoFateLater(script, n, i);
      }
      NoneSurvive(pieces[..n], LaterFates(script));
    }
  }

  /** The failure reported is the first one met: all undos before it, of later steps, were done. */
  lemma {:induction false} FirstUndoneMeans(count: nat, script: seq<Fate>, f: nat)
    requires f < count
    ensures FirstUndone(count, script) == Some(f) <==>
      !Effective(UndoFate(script, count, f)) && forall i :: f < i < count ==> Effective(UndoFate(script, count, i))
    ensures FirstUndone(count, script).None? ==> Effective(UndoFate(script, count, f))
  {
    var n := count - 1;
    UndoLast(script, n);
    forall i | 0 <= i < n
      ensures UndoFate(LaterFates(script), n, i) == UndoFate(script, count, i)
    {
      UndoFateLater(script, n, i);
    }
    hide UndoFate, Effective;
    assert UndoFate(script, count, n) == NextFate(script);
    if f < n {
      FirstUndoneMeans(n, LaterFates(script), f);
      if Effective(NextFate(script)) && FirstUndone(count, script) == Some(f) {
        forall i | f < i < count
          ensures Effective(UndoFate(script, count, i))
        {
          if i < n { assert Effective(UndoFate(LaterFates(script), n, i)); }
        }
      }
    }
  }

  predicate IsSubsequence<T(==)>(a: seq<T>, b: seq<T>) {
    if a == [] then true
    else if b == [] then false
    else (a[0] == b[0] && IsSubsequence(a[1..], b[1..])) || IsSubsequence(a, b[1..])
  }

  lemma SubsequenceCons<T>(a: seq<T>, x: T, b: seq<T>)
    requires IsSubsequence(a, b)
    ensures IsSubsequence(a, [x] + b) && IsSubsequence([x] + a, [x] + b)
  {
    assert ([x] + b)[1..] == b && ([x] + a)[1..] == a;
  }

  /** One rollback step from a state where `a`, `p` and `b` are installed, or `a` and `b` without `p`. */
  lemma UndoStep(start: Network, a: seq<Piece>, p: Piece, b: seq<Piece>, n: Network, fate: Fate)
    requires Ready(start, a + [p] + b)
    requires n == Installed(start, a + [p] + b) || n == Installed(start, a + b)
    ensures var (reply, next) := Respond(n, StepOf(p).rollback, fate);
            && (next == n || next == Installed(start, a + b))
            && (UndoDone(reply) ==> next == Installed(start, a + b))
    ensures UndoDone(fate.reply) && n == Installed(start, a + [p] + b) ==>
              UndoDone(Respond(n, StepOf(p).rollback, fate).0)
  {
    UndoPiece(start, a, p, b);
  }

  /** The same exactly, by the fate that the undo meets. */
  lemma UndoExact(start: Network, a: seq<Piece>, p: Piece, b: seq<Piece>, present: bool, fate: Fate)
    requires Ready(start, a + [p] + b)
    ensures var n := Installed(start, if present then a + [p] + b else a + b);
            var (reply, next) := Respond(n, StepOf(p).rollback, fate);
            && next == Installed(start, if present && Survives(fate) then a + [p] + b else a + b)
            && UndoDone(reply) == if present then Effective(fate) else fate.reply == Failed(Absent)
  {
    UndoPiece(start, a, p, b);
    hide Installed, Ready, Perform, StepOf;
  }

  /** The prefix of a step list together with what is kept of the rest. */
  lemma PrefixSplit(pieces: seq<Piece>, i: nat, kept: seq<Piece>)
    requires i < |pieces|
    ensures pieces[..i + 1] + kept == pieces[..i] + [pieces[i]] + kept
  {
    assert pieces[..i + 1] == pieces[..i] + [pieces[i]];
  }

  lemma {:induction false} ReadyPrefix(start: Network, pieces: seq<Piece>, k: nat)
    requires Ready(start, pieces) && k <= |pieces|
    ensures Ready(start, pieces[..k])
    decreases |pieces| - k
  {
    if k == |pieces| {
      assert pieces[..k] == pieces;
    } else {
      ReadyPrefix(start, pieces, k + 1);
      assert pieces[..k + 1] == pieces[..k] + [pieces[k]] + [];
      ReadyDrop(start, pieces[..k], pieces[k], []);
      assert pieces[..k] + [] == pieces[..k];
    }
  }

  class NetworkExecutor {
    const backend: Backend

    constructor (backend: Backend)
      ensures this.backend == backend
    {
      this.backend := backend;
    }

    method ExecuteRollback(steps: seq<Step>, index: nat) returns (done: bool)
      requires index < |steps|
      modifies backend
      ensures var (reply, next) := Respond(old(backend.network), steps[index].rollback, NextFate(old(backend.script)));
              done == UndoDone(reply) && backend.network == next
      ensures backend.script == LaterFates(old(backend.script))
    {
      var reply := backend.Execute(steps[index].rollback);
      done := UndoDone(reply);
    }

    /** Rolls back every step below `end`, going on after failures: each of the `end` undos is given its one command,
        and what stays installed are the steps whose own undo failed without taking effect.  `present` says whether
        the last of them was installed at all. */
    method RollbackRange(
      steps: seq<Step>, end: nat, ghost start: Network, ghost pieces: seq<Piece>, ghost present: bool)
      returns (firstFailure: Option<nat>, ghost kept: seq<Piece>)
      requires Ready(start, pieces) && steps == StepsOf(pieces) && 0 < end <= |steps|
      requires backend.network == Installed(start, if present then pieces[..end] else pieces[..end - 1])
      modifies backend
      ensures backend.network == Installed(start, kept)
      ensures kept == Leftover(pieces, end, present, old(backend.script))
      ensures backend.script == After(old(backend.script), end)
      ensures firstFailure == Reported(end, present, old(backend.script))
      ensures firstFailure.None? ==> kept == [] && backend.network == start
      ensures firstFailure.Some? ==> firstFailure.value < end && IsSubsequence(kept, pieces[..firstFailure.value + 1])
    {
      hide Ready, Installed, Respond, StepsOf, Leftover, Reported, Effective, Survives, IsSubsequence, RangeAt, Standing;
      hide After, FateAt, NextFate, LaterFates, UndoDone;
      ghost var script := backend.script;
      firstFailure, kept := None, [];
      var index := end;
      RangeStarts(pieces, end, present, script);
      StandingStarts(start, pieces, end, present);
      while index > 0
        invariant index <= end && backend.script == After(script, end - index)
        invariant index == end ==> kept == [] && firstFailure.None?
        invariant Standing(start, pieces, end, present, index, kept, backend.network)
        invariant RangeAt(pieces, end, present, script, index, kept, firstFailure)
        invariant firstFailure.None? ==> kept == []
        invariant firstFailure.Some? ==> index <= firstFailure.value < end &&
                                         IsSubsequence(kept, pieces[index..firstFailure.value + 1])
      {
        ghost var before, there, fate := kept, index < end || present, NextFate(backend.script);
        assert steps[index - 1] == StepOf(pieces[index - 1]) by { StepsOfAt(pieces, index - 1); }
        StandingNext(start, pieces, end, present, index, kept, backend.network, fate);
        RangeNext(pieces, end, present, script, index, kept, firstFailure);
        AfterNext(script, end - index);
        SurvivesMeans(fate);
        var done := ExecuteRollback(steps, index - 1);
        index := index - 1;
        if !done && firstFailure.None? { firstFailure := Some(index); }
        if there && Survives(fate) {
          kept := [pieces[index]] + kept;
        }
        if firstFailure.Some? {
          KeepSubsequence(pieces, index, firstFailure.value, before, kept);
        }
      }
      StandingEnds(start, pieces, end, present, kept, backend.network);
      RangeEnds(pieces, end, present, script, kept, firstFailure);
      if firstFailure.Some? { assert pieces[0..firstFailure.value + 1] == pieces[..firstFailure.value + 1]; }
    }

    /** `apply_steps`: all steps, or a rollback.  After a failed apply whose rollback reported no failure the network
        is exactly what it was before. */
    method ApplySteps(generation: nat, slot: Slot, steps: seq<Step>, ghost pieces: seq<Piece>)
      returns (r: Result<ApplyReceipt, ExecutionError>, ghost kept: seq<Piece>)
      requires Ready(backend.network, pieces) && steps == StepsOf(pieces)
      modifies backend
      ensures backend.network == Installed(old(backend.network), kept)
      ensures r.Ok? ==> kept == pieces && fresh(r.value)
                        && r.value.generation == generation && r.value.slot == slot && r.value.completedSteps == |steps|
      ensures r.Err? ==> r.error.ApplyFailed? || r.error.ApplyRollbackFailed?
      ensures r.Err? && r.error.ApplyFailed? ==>
                r.error.step < |steps| && kept == [] && backend.network == old(backend.network)
      ensures r.Err? && r.error.ApplyRollbackFailed? ==>
                && r.error.rollbackStep <= r.error.applyStep < |steps|
                && IsSubsequence(kept, pieces[..r.error.rollbackStep + 1])
      ensures AllSucceed(old(backend.script)) ==> r.Ok? && AllSucceed(backend.script)
      ensures r.Ok? <==> Progress(|steps|, old(backend.script)) == |steps|
      ensures r.Ok? ==> backend.script == After(old(backend.script), |steps|)
      ensures r.Err? ==> Abandoned(pieces, old(backend.script), r.error, kept, backend.script)
    {
      hide Ready, Installed, Respond, StepsOf, Leftover, Reported, Progress, Effective, AllSucceed, IsSubsequence;
      hide After, FateAt, NextFate, LaterFates;
      ghost var start, script := backend.network, backend.script;
      var completed := 0;
      InstalledNothing(start);
      ProgressNone(|steps|, script);
      while completed < |steps|
        invariant completed <= |steps|
        invariant backend.network == Installed(start, pieces[..completed])
        invariant AllSucceed(old(backend.script)) ==> AllSucceed(backend.script)
        invariant backend.script == After(script, completed)
        invariant Progress(|steps|, script) == completed + Progress(|steps| - completed, backend.script)
      {
        ghost var a, p := pieces[..completed], pieces[completed];
        assert steps[completed] == StepOf(p) by { StepsOfAt(pieces, completed); }
        assert pieces[..completed + 1] == a + [p];
        ReadyPrefix(start, pieces, completed + 1);
        ghost var fate := NextFate(backend.script);
        ApplyStep(start, a, p, fate);
        AfterNext(script, completed);
        SucceedNext(backend.script);
        ProgressNext(|steps| - completed, backend.script);
        var reply := backend.Execute(steps[completed].apply);
        if reply != Succeeded {
          assert pieces[..completed + 1 - 1] == a;
          AfterBoth(script, completed + 1, completed + 1);
          var failure;
          failure, kept := RollbackRange(steps, completed + 1, start, pieces, fate.took);
          r := Err(if failure.None? then ApplyFailed(completed) else ApplyRollbackFailed(completed, failure.value));
          return;
        }
        completed := completed + 1;
      }
      assert pieces[..completed] == pieces;
      ProgressNone(0, backend.script);
      kept := pieces;
      var receipt := new ApplyReceipt(generation, slot, completed);
      r := Ok(receipt);
    }

    /** `rollback_steps`: undo from the last completed step down, stopping at the first failure.  The receipt keeps
        what is left to do, so the call can be repeated. */
    method RollbackSteps(generation: nat, slot: Slot, steps: seq<Step>, receipt: ApplyReceipt)
      returns (r: Result<(), ExecutionError>)
      requires receipt.completedSteps <= |steps|
      modifies backend, receipt
      ensures receipt.generation != generation || receipt.slot != slot ==>
                && r == Err(ReceiptMismatch) && unchanged(backend) && unchanged(receipt)
      ensures receipt.generation == generation && receipt.slot == slot ==>
                var run := RollbackRun(old(backend.network), steps, old(receipt.completedSteps), old(backend.script));
                && backend.network == run.network && backend.script == run.script
                && receipt.completedSteps == run.remaining
                && r == if run.remaining == 0 then Ok(()) else Err(RollbackFailed(run.remaining - 1))
    {
      if receipt.generation != generation || receipt.slot != slot {
        return Err(ReceiptMismatch);
      }
      while receipt.completedSteps > 0
        invariant receipt.completedSteps <= |steps|
        invariant RollbackRun(old(backend.network), steps, old(receipt.completedSteps), old(backend.script)) ==
                  RollbackRun(backend.network, steps, receipt.completedSteps, backend.script)
      {
        var done := ExecuteRollback(steps, receipt.completedSteps - 1);
        if !done { return Err(RollbackFailed(receipt.completedSteps - 1)); }
        receipt.completedSteps := receipt.completedSteps - 1;
      }
      return Ok(());
    }
  }

  /** One apply step puts its piece last, or fails with the piece present or absent. */
  lemma ApplyStep(start: Network, a: seq<Piece>, p: Piece, fate: Fate)
    requires Ready(start, a + [p])
    ensures var (reply, next) := Respond(Installed(start, a), StepOf(p).apply, fate);
            && next == Installed(start, if Effective(fate) || fate.took then a + [p] else a)
            && (reply == Succeeded <==> Effective(fate))
    ensures fate.reply == Succeeded ==> Effective(fate)
  {
    assert a + [p] + [] == a + [p] && a + [] == a;
    UndoPiece(start, a, p, []);
  }

  /** How many of `count` steps are applied before one fails. */
  function Progress(count: nat, script: seq<Fate>): (k: nat)
    ensures k <= count
  {
    if count == 0 || !Effective(NextFate(script)) then 0 else 1 + Progress(count - 1, LaterFates(script))
  }

  lemma ProgressNext(count: nat, script: seq<Fate>)
    requires count > 0
    ensures Progress(count, script) == if Effective(NextFate(script)) then 1 + Progress(count - 1, LaterFates(script)) else 0
  {
  }

  /** The apply stops at the first step whose command the world stands in the way of. */
  lemma {:induction false} ProgressMeans(count: nat, script: seq<Fate>, k: nat)
    requires k <= count
    ensures Progress(count, script) == k <==>
      (forall i :: 0 <= i < k ==> Effective(FateAt(script, i))) && (k < count ==> !Effective(FateAt(script, k)))
  {
    hide Effective;
    if count > 0 && k > 0 {
      ProgressMeans(count - 1, LaterFates(script), k - 1);
      assert FateAt(script, 0) == NextFate(script);
      assert forall i: nat :: FateAt(script, i + 1) == FateAt(LaterFates(script), i);
      forall i | 0 <= i < k - 1 && forall j :: 0 <= j < k ==> Effective(FateAt(script, j))
        ensures Effective(FateAt(LaterFates(script), i))
      {
        assert Effective(FateAt(script, i + 1));
      }
      forall i | 0 < i < k && forall j :: 0 <= j < k - 1 ==> Effective(FateAt(LaterFates(script), j))
        ensures Effective(FateAt(script, i))
      {
        assert Effective(FateAt(LaterFates(script), i - 1));
      }
    }
  }

  lemma SucceedNext(script: seq<Fate>)
    ensures AllSucceed(script) ==> NextFate(script).reply == Succeeded && AllSucceed(LaterFates(script))
  {
  }

  lemma ProgressNone(count: nat, script: seq<Fate>)
    ensures After(script, 0) == script && Progress(0, script) == 0
  {
  }

  /** How a failed apply ends: the step that failed, the undo of it and of all before it, and what that leaves. */
  ghost predicate Abandoned(
    pieces: seq<Piece>, script: seq<Fate>, error: ExecutionError, kept: seq<Piece>, left: seq<Fate>)
  {
    var done := Progress(|pieces|, script);
    var took, rest := FateAt(script, done).took, After(script, done + 1);
    && done < |pieces|
    && kept == Leftover(pieces, done + 1, took, rest)
    && left == After(script, 2 * (done + 1))
    && error == match Reported(done + 1, took, rest)
                case None => ApplyFailed(done)
                case Some(undo) => ApplyRollbackFailed(done, undo)
  }

  // ----- the loop over the undos -----

  /** What the network holds when `index` steps are still to be undone and `kept` could not be. */
  ghost predicate Standing(
    start: Network, pieces: seq<Piece>, end: nat, present: bool, index: nat, kept: seq<Piece>, n: Network)
    requires index <= end <= |pieces| && 0 < end
  {
    && Ready(start, pieces[..index] + kept)
    && n == Installed(start, (if index == end && !present then pieces[..index - 1] else pieces[..index]) + kept)
  }

  lemma StandingStarts(start: Network, pieces: seq<Piece>, end: nat, present: bool)
    requires Ready(start, pieces) && 0 < end <= |pieces|
    ensures Standing(start, pieces, end, present, end, [],
                     Installed(start, if present then pieces[..end] else pieces[..end - 1]))
  {
    hide Ready, Installed;
    ReadyPrefix(start, pieces, end);
    assert pieces[..end] + [] == pieces[..end] && pieces[..end - 1] + [] == pieces[..end - 1];
  }

  lemma StandingNext(
    start: Network, pieces: seq<Piece>, end: nat, present: bool, index: nat, kept: seq<Piece>, n: Network, fate: Fate)
    requires 0 < index <= end <= |pieces| && Standing(start, pieces, end, present, index, kept, n)
    ensures var there := index < end || present;
            var (reply, next) := Respond(n, StepOf(pieces[index - 1]).rollback, fate);
            && Standing(start, pieces, end, present, index - 1,
                        if there && Survives(fate) then [pieces[index - 1]] + kept else kept, next)
            && UndoDone(reply) == if there then Effective(fate) else fate.reply == Failed(Absent)
  {
    hide Ready, Installed, Respond, StepOf, Survives, Effective;
    var a, p := pieces[..index - 1], pieces[index - 1];
    PrefixSplit(pieces, index - 1, kept);
    UndoExact(start, a, p, kept, index < end || present, fate);
    ReadyDrop(start, a, p, kept);
    assert a + [p] + kept == a + ([p] + kept);
  }

  lemma StandingEnds(start: Network, pieces: seq<Piece>, end: nat, present: bool, kept: seq<Piece>, n: Network)
    requires 0 < end <= |pieces| && Standing(start, pieces, end, present, 0, kept, n)
    ensures n == Installed(start, kept) && (kept == [] ==> n == start)
  {
    hide Ready, Installed;
    assert pieces[..0] + kept == kept;
    InstalledNothing(start);
  }

  /** Where the loop stands: what is left to undo and what was kept make up what will stay. */
  ghost predicate RangeAt(
    pieces: seq<Piece>, end: nat, present: bool, script: seq<Fate>, index: nat, kept: seq<Piece>, failure: Option<nat>)
    requires 0 < end <= |pieces|
  {
    && index <= end
    && (index < end || present ==>
          && Leftover(pieces, end, present, script) == Survivors(pieces[..index], After(script, end - index)) + kept
          && Reported(end, present, script) ==
             if failure.Some? then failure else FirstUndone(index, After(script, end - index)))
  }

  lemma RangeStarts(pieces: seq<Piece>, end: nat, present: bool, script: seq<Fate>)
    requires 0 < end <= |pieces|
    ensures After(script, 0) == script
    ensures RangeAt(pieces, end, present, script, end, [], None)
  {
  }

  lemma SurvivesMeans(fate: Fate)
    ensures Survives(fate) ==> !Effective(fate)
  {
  }

  lemma RangeNext(
    pieces: seq<Piece>, end: nat, present: bool, script: seq<Fate>, index: nat, kept: seq<Piece>, failure: Option<nat>)
    requires 0 < end <= |pieces| && 0 < index <= end && RangeAt(pieces, end, present, script, index, kept, failure)
    requires index == end ==> kept == [] && failure.None?
    ensures var fate, there := FateAt(script, end - index), index < end || present;
            var done := if there then Effective(fate) else fate.reply == Failed(Absent);
            RangeAt(pieces, end, present, script, index - 1,
                    if there && Survives(fate) then [pieces[index - 1]] + kept else kept,
                    if !done && failure.None? then Some(index - 1) else failure)
  {
    hide Effective, Survives, FateAt, After;
    AfterNext(script, end - index);
    var rest := After(script, end - index);
    if index < end || present {
      SurvivorsLast(pieces, index, rest, kept);
    } else {
      AfterAll(script);
    }
  }

  lemma AfterAll(script: seq<Fate>)
    ensures After(script, 0) == script
  {
  }

  lemma SurvivorsLast(pieces: seq<Piece>, index: nat, rest: seq<Fate>, kept: seq<Piece>)
    requires 0 < index <= |pieces|
    ensures Survivors(pieces[..index], rest) + kept ==
            Survivors(pieces[..index - 1], LaterFates(rest))
            + if Survives(NextFate(rest)) then [pieces[index - 1]] + kept else kept
  {
    hide Survives;
    assert pieces[..index][..index - 1] == pieces[..index - 1];
  }

  lemma RangeEnds(
    pieces: seq<Piece>, end: nat, present: bool, script: seq<Fate>, kept: seq<Piece>, failure: Option<nat>)
    requires 0 < end <= |pieces| && RangeAt(pieces, end, present, script, 0, kept, failure)
    ensures kept == Leftover(pieces, end, present, script) && failure == Reported(end, present, script)
  {
  }

  // ----- interrupted and repeated rollbacks -----

  datatype RollbackOutcome = RollbackOutcome(network: Network, remaining: nat, script: seq<Fate>)

  /** One call of `rollback_steps` on a matching receipt. */
  function RollbackRun(n: Network, steps: seq<Step>, completed: nat, script: seq<Fate>): (r: RollbackOutcome)
    requires completed <= |steps|
    ensures r.remaining <= completed
    decreases completed
  {
    if completed == 0 then RollbackOutcome(n, 0, script)
    else
      var response := Respond(n, steps[completed - 1].rollback, NextFate(script));
      if UndoDone(response.0) then RollbackRun(response.1, steps, completed - 1, LaterFates(script))
      else RollbackOutcome(response.1, completed, LaterFates(script))
  }

  /** Calls of `rollback_steps` one after the other, each meeting its own fates. */
  function Retries(n: Network, steps: seq<Step>, completed: nat, scripts: seq<seq<Fate>>): (r: RollbackOutcome)
    requires completed <= |steps|
    decreases |scripts|
  {
    if scripts == [] then RollbackOutcome(n, completed, [])
    else
      var run := RollbackRun(n, steps, completed, scripts[0]);
      Retries(run.network, steps, run.remaining, scripts[1..])
  }

  /** The network holds the first `completed` pieces, or one less when the last undo failed after taking effect. */
  ghost predicate Resumable(start: Network, pieces: seq<Piece>, completed: nat, n: Network) {
    && completed <= |pieces|
    && (n == Installed(start, pieces[..completed]) ||
        (completed > 0 && n == Installed(start, pieces[..completed - 1])))
  }

  lemma {:induction false} RollbackRunResumable(
    start: Network, pieces: seq<Piece>, completed: nat, n: Network, script: seq<Fate>)
    requires Ready(start, pieces) && Resumable(start, pieces, completed, n)
    ensures var run := RollbackRun(n, StepsOf(pieces), completed, script);
            && Resumable(start, pieces, run.remaining, run.network)
            && (run.remaining == 0 ==> run.network == start)
    decreases completed
  {
    hide Ready, Installed, Respond, StepsOf;
    if completed == 0 {
      InstalledNothing(start);
    } else {
      var a, p := pieces[..completed - 1], pieces[completed - 1];
      StepsOfAt(pieces, completed - 1);
      assert pieces[..completed] == a + [p] + [] && a + [] == a;
      ReadyPrefix(start, pieces, completed);
      UndoStep(start, a, p, [], n, NextFate(script));
      var response := Respond(n, StepOf(p).rollback, NextFate(script));
      if UndoDone(response.0) {
        RollbackRunResumable(start, pieces, completed - 1, response.1, LaterFates(script));
      }
    }
  }

  /** Rollback is resumable: however often it is called and whatever fails in between, the network holds a prefix of
      the plan that matches the receipt, the receipt never grows, and an empty receipt means the start is restored. */
  lemma {:induction false} RetriesResumable(
    start: Network, pieces: seq<Piece>, completed: nat, n: Network, scripts: seq<seq<Fate>>)
    requires Ready(start, pieces) && Resumable(start, pieces, completed, n)
    ensures var run := Retries(n, StepsOf(pieces), completed, scripts);
            && Resumable(start, pieces, run.remaining, run.network)
            && run.remaining <= completed
            && (run.remaining == 0 ==> run.network == start)
    decreases |scripts|
  {
    if scripts == [] {
      InstalledNothing(start);
    } else {
      RollbackRunResumable(start, pieces, completed, n, scripts[0]);
      var run := RollbackRun(n, StepsOf(pieces), completed, scripts[0]);
      RetriesResumable(start, pieces, run.remaining, run.network, scripts[1..]);
    }
  }

  ghost predicate Favourable(script: seq<Fate>) {
    forall fate :: fate in script ==> UndoDone(fate.reply)
  }

  /** A call that meets no failure finishes the rollback and restores the start. */
  lemma {:induction false} FavourableCallRestores(
    start: Network, pieces: seq<Piece>, completed: nat, n: Network, script: seq<Fate>)
    requires Ready(start, pieces) && completed <= |pieces|
    requires n == Installed(start, pieces[..completed])
    requires Favourable(script)
    ensures var run := RollbackRun(n, StepsOf(pieces), completed, script);
            run.remaining == 0 && run.network == start
    decreases completed
  {
    hide Ready, Installed, Respond, StepsOf;
    if completed == 0 {
      InstalledNothing(start);
    } else {
      var a, p := pieces[..completed - 1], pieces[completed - 1];
      StepsOfAt(pieces, completed - 1);
      assert pieces[..completed] == a + [p] + [] && a + [] == a;
      ReadyPrefix(start, pieces, completed);
      UndoStep(start, a, p, [], n, NextFate(script));
      var response := Respond(n, StepOf(p).rollback, NextFate(script));
      FavourableCallRestores(start, pieces, completed - 1, response.1, LaterFates(script));
    }
  }

  lemma StepsOfAt(pieces: seq<Piece>, i: nat)
    requires i < |pieces|
    ensures StepsOf(pieces)[i] == StepOf(pieces[i])
  {
  }

  lemma KeepSubsequence(pieces: seq<Piece>, i: nat, failure: nat, before: seq<Piece>, kept: seq<Piece>)
    requires i <= failure < |pieces|
    requires if i == failure then before == [] else IsSubsequence(before, pieces[i + 1..failure + 1])
    requires kept == before || kept == [pieces[i]] + before
    ensures IsSubsequence(kept, pieces[i..failure + 1])
  {
    assert pieces[i..failure + 1] == [pieces[i]] + pieces[i + 1..failure + 1];
    SubsequenceCons(before, pieces[i], pieces[i + 1..failure + 1]);
  }
}
