/** The seam between two batches: when a batch that has just been started can still overtake an earlier one. */
module Seam {
  import opened Types
  import opened Runtime
  import opened StepEquations
  import opened Ledger
  import opened Discipline
  import opened Chain
  import opened Batch

  // The callback of a released intent of batch `b` is due.
  predicate Due(p: Phase, b: nat) { p.Resumed? && p.batch == b }

  ghost predicate CallbackDue(w: World, b: nat) {
    exists i :: 0 <= i < |w.intents| && Due(w.intents[i].phase, b)
  }

  // Some dispatch of batch `late` comes before some dispatch of batch `early`.
  ghost predicate Overtakes(t: seq<Sent>, late: nat, early: nat) {
    exists j, k :: 0 <= j < k < |t| && t[j].batch == late && t[k].batch == early
  }

  ghost predicate Continues(host: Host, ws: seq<World>, steps: seq<Step>, ws': seq<World>, steps': seq<Step>) {
    GateRun(host, ws', steps') && SafeRun(host, ws', steps') && ws <= ws' && steps <= steps'
  }

  // ---- without a callback due, the earlier batch dispatches nothing more ----

  ghost predicate Appends(w0: World, w: World, b: nat) {
    && w0.trace <= w.trace && |w0.batches| <= |w.batches|
    && forall q :: |w0.trace| <= q < |w.trace| ==> w.trace[q].batch != b
  }

  // The chain of a batch that is not the latest has released everything.
  lemma OldChainReleased(w: World, i: nat, b: nat)
    requires Inv(w) && ChainInv(w) && i < |w.intents| && Flight(w.intents[i].phase, b) && 1 <= b < |w.batches|
    ensures !Token(w.intents[i].phase)
  {
    if Token(w.intents[i].phase) {
      OneToken(w, i, i);
    }
  }

  lemma NoneDueAfter(w: World, w': World, kind: Kind, b: nat, i: nat)
    requires Orderly(w, w', kind) && i < |w.intents| && !Due(w.intents[i].phase, b) && 1 <= b <= |w.batches|
    requires kind.Link? ==> BatchOf(w.intents[kind.id].phase) != b
    ensures i < |w'.intents| && !Due(w'.intents[i].phase, b)
  {
    if kind.Parking? {
      assert w'.intents[..|w.intents|][i] == w.intents[i];
    }
  }

  lemma SpentSend(w: World, w': World, kind: Kind, b: nat)
    requires Orderly(w, w', kind) && !CallbackDue(w, b)
    ensures w.trace <= w'.trace && forall q :: |w.trace| <= q < |w'.trace| ==> w'.trace[q].batch != b
  {
    if kind.Send? {
      assert !Due(w.intents[kind.id].phase, b);
    }
  }

  lemma SpentStep(w: World, w': World, kind: Kind, b: nat)
    requires Inv(w) && ChainInv(w) && Orderly(w, w', kind) && 1 <= b < |w.batches| && !CallbackDue(w, b)
    ensures !CallbackDue(w', b) && Appends(w, w', b)
  {
    SpentSend(w, w', kind, b);
    if kind.Link? && BatchOf(w.intents[kind.id].phase) == b {
      OldChainReleased(w, kind.id, b);
    }
    forall i | 0 <= i < |w'.intents| ensures !Due(w'.intents[i].phase, b) {
      if i < |w.intents| {
        NoneDueAfter(w, w', kind, b, i);
      }
    }
  }

  ghost predicate Spent(w0: World, w: World, b: nat) {
    !CallbackDue(w, b) && Appends(w0, w, b)
  }

  lemma SpentOn(w0: World, w: World, w': World, kind: Kind, b: nat)
    requires Spent(w0, w, b) && 1 <= b < |w0.batches| && Good(w) && Orderly(w, w', kind)
    ensures Spent(w0, w', b)
  {
    SpentStep(w, w', kind, b);
  }

  lemma {:induction false} SpentWalk(ws: seq<World>, kinds: seq<Kind>, j: nat, k: nat, b: nat)
    requires |ws| == |kinds| + 1 && j <= k < |ws| && 1 <= b < |ws[j].batches| && !CallbackDue(ws[j], b)
    requires forall m :: j <= m <= k ==> Good(ws[m])
    requires forall m :: j <= m < k ==> Orderly(ws[m], ws[m + 1], kinds[m])
    ensures Spent(ws[j], ws[k], b)
  {
    if j < k {
      SpentWalk(ws, kinds, j, k - 1, b);
      assert Good(ws[k - 1]);
      SpentOn(ws[j], ws[k - 1], ws[k], kinds[k - 1], b);
    }
  }

  lemma JustStarted(w: World, w': World, ids: seq<u64>)
    requires Inv(w) && StartMove(w, w', ids)
    ensures ids[0] < |w'.intents| && Due(w'.intents[ids[0]].phase, |w'.batches|)
    ensures forall q :: 0 <= q < |w'.trace| ==> w'.trace[q].batch != |w'.batches|
  {
    assert forall q :: 0 <= q < |w.trace| ==> SentOk(w, w.trace[q]);
  }

  // The last step of the run started a batch.
  ghost predicate EndsInStart(host: Host, ws: seq<World>, steps: seq<Step>)
    requires IsRun(host, ws, steps)
  {
    |steps| > 0 && Kinds(host, ws, steps)[|steps| - 1].Start?
  }

  lemma LastIsStart(host: Host, ws: seq<World>, steps: seq<Step>) returns (first: nat)
    requires GateRun(host, ws, steps) && EndsInStart(host, ws, steps)
    ensures var w := ws[|steps|];
            && first < |w.intents| && Due(w.intents[first].phase, |w.batches|)
            && forall q :: 0 <= q < |w.trace| ==> w.trace[q].batch != |w.batches|
  {
    var kinds := Kinds(host, ws, steps);
    RunIsWalk(host, ws, steps);
    JustStarted(ws[|kinds| - 1], ws[|kinds|], kinds[|kinds| - 1].ids);
    first := kinds[|kinds| - 1].ids[0];
  }

  lemma RunSpent(host: Host, ws: seq<World>, steps: seq<Step>, n: nat, b: nat)
    requires GateRun(host, ws, steps) && SafeRun(host, ws, steps) && n < |ws|
    requires 1 <= b < |ws[n].batches| && !CallbackDue(ws[n], b)
    ensures Spent(ws[n], ws[|steps|], b)
  {
    RunIsSafeWalk(host, ws, steps);
    forall m | n <= m <= |steps| ensures Good(ws[m]) {
      SettledHolds(ws, Kinds(host, ws, steps), m);
    }
    SpentWalk(ws, Kinds(host, ws, steps), n, |steps|, b);
  }

  lemma NotOvertaken(host: Host, ws: seq<World>, steps: seq<Step>, b: nat, ws': seq<World>, steps': seq<Step>)
    requires GateRun(host, ws, steps) && EndsInStart(host, ws, steps)
    requires 1 <= b < |ws[|steps|].batches| && !CallbackDue(ws[|steps|], b)
    requires Continues(host, ws, steps, ws', steps')
    ensures !Overtakes(ws'[|steps'|].trace, |ws[|steps|].batches|, b)
  {
    var first := LastIsStart(host, ws, steps);
    RunSpent(host, ws', steps', |steps|, b);
  }

  // ---- with one due, two callbacks suffice ----

  lemma RunExtended(host: Host, ws: seq<World>, steps: seq<Step>, s: Step, w': World)
    requires IsRun(host, ws, steps) && Enabled(ws[|steps|], s) && w' == Next(host, ws[|steps|], s)
    ensures IsRun(host, ws + [w'], steps + [s])
    ensures Kinds(host, ws + [w'], steps + [s]) == Kinds(host, ws, steps) + [KindOf(host, ws[|steps|], s)]
  {
  }

  lemma RunOn(host: Host, ws: seq<World>, steps: seq<Step>, s: Step) returns (ws': seq<World>, steps': seq<Step>)
    requires GateRun(host, ws, steps) && SafeRun(host, ws, steps) && Enabled(ws[|steps|], s)
    requires SafeStep(ws[|steps|], KindOf(host, ws[|steps|], s))
    ensures Continues(host, ws, steps, ws', steps')
    ensures ws' == ws + [Next(host, ws[|steps|], s)] && steps' == steps + [s]
  {
    ws', steps' := ws + [Next(host, ws[|steps|], s)], steps + [s];
    RunExtended(host, ws, steps, s, Next(host, ws[|steps|], s));
    var kinds, kinds' := Kinds(host, ws, steps), Kinds(host, ws', steps');
    forall k | 0 <= k < |kinds'| ensures SafeStep(ws'[k], kinds'[k]) {
      assert k < |kinds| ==> ws'[k] == ws[k] && kinds'[k] == kinds[k];
    }
  }

  function CallbackNow(w: World, i: nat): Step { Step(w.block, Callback(i, false)) }

  lemma CallbackSends(host: Host, w: World, i: nat, b: nat)
    requires Inv(w) && ChainInv(w) && i < |w.intents| && Due(w.intents[i].phase, b) && 1 <= b <= |w.batches|
    ensures Enabled(w, CallbackNow(w, i)) && KindOf(host, w, CallbackNow(w, i)) == Send(i)
  {
    assert FlightOk(w, i, b, |SentIn(w.trace, b)|, |RanIn(w.ran, b)|);
    CountersBounded(w, i);
    NoSequenceOverflow(w, i);
  }

  // Only intent `i` has moved, and it was dispatched.
  ghost predicate SentOne(w: World, w': World, i: nat, b: nat) {
    && |w'.trace| == |w.trace| + 1 && w.trace <= w'.trace && w'.trace[|w.trace|].batch == b
    && |w'.intents| == |w.intents| && w'.batches == w.batches
    && forall j :: 0 <= j < |w.intents| && j != i ==> w'.intents[j] == w.intents[j]
  }

  // The callback of a batch's intent, run in the same block.
  lemma CallbackRuns(host: Host, ws: seq<World>, steps: seq<Step>, i: nat, b: nat)
    returns (ws': seq<World>, steps': seq<Step>)
    requires GateRun(host, ws, steps) && SafeRun(host, ws, steps)
    requires i < |ws[|steps|].intents| && Due(ws[|steps|].intents[i].phase, b) && 1 <= b <= |ws[|steps|].batches|
    ensures Continues(host, ws, steps, ws', steps') && SentOne(ws[|steps|], ws'[|steps'|], i, b)
  {
    var w := ws[|steps|];
    RunIsSafeWalk(host, ws, steps);
    ChainHolds(ws, Kinds(host, ws, steps), |steps|);
    CallbackSends(host, w, i, b);
    StepMoves(host, w, CallbackNow(w, i));
    ws', steps' := RunOn(host, ws, steps, CallbackNow(w, i));
  }

  lemma CanOvertake(host: Host, ws: seq<World>, steps: seq<Step>, b: nat)
    returns (ws': seq<World>, steps': seq<Step>)
    requires GateRun(host, ws, steps) && SafeRun(host, ws, steps)
    requires EndsInStart(host, ws, steps)
    requires 1 <= b < |ws[|steps|].batches| && CallbackDue(ws[|steps|], b)
    ensures Continues(host, ws, steps, ws', steps')
    ensures Overtakes(ws'[|steps'|].trace, |ws[|steps|].batches|, b)
  {
    var w := ws[|steps|];
    var first := LastIsStart(host, ws, steps);
    var i :| 0 <= i < |w.intents| && Due(w.intents[i].phase, b);
    var ws1, steps1 := CallbackRuns(host, ws, steps, first, |w.batches|);
    ws', steps' := CallbackRuns(host, ws1, steps1, i, b);
    var t := ws'[|steps'|].trace;
    assert t[|w.trace|].batch == |w.batches| && t[|w.trace| + 1].batch == b;
  }

  // A batch that has just been started can overtake an earlier batch, under some continuation of the safe run, if
  // and only if the callback of an intent of the earlier one is still due.
  lemma SeamExactly(host: Host, ws: seq<World>, steps: seq<Step>, b: nat)
    requires GateRun(host, ws, steps) && SafeRun(host, ws, steps)
    requires EndsInStart(host, ws, steps)
    requires 1 <= b < |ws[|steps|].batches|
    ensures CallbackDue(ws[|steps|], b) <==>
            exists ws': seq<World>, steps': seq<Step> :: Continues(host, ws, steps, ws', steps')
                                  && Overtakes(ws'[|steps'|].trace, |ws[|steps|].batches|, b)
  {
    if CallbackDue(ws[|steps|], b) {
      var ws', steps' := CanOvertake(host, ws, steps, b);
    } else {
      forall ws': seq<World>, steps': seq<Step> | Continues(host, ws, steps, ws', steps')
        ensures !Overtakes(ws'[|steps'|].trace, |ws[|steps|].batches|, b)
      {
        NotOvertaken(host, ws, steps, b, ws', steps');
      }
    }
  }
}
