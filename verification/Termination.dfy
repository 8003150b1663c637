/** Every run winds down: each release and each runtime step uses up part of a fixed allowance per intent,
    and once nothing is due every intent is resolved and the books balance. */
module Termination {
  import opened Types
  import opened Runtime
  import opened StepEquations
  import opened Ledger
  import opened Discipline
  import opened Chain
  import opened Completion

  // How many more steps an intent's own receipts can take, at most.
  function Weight(p: Phase): nat {
    match p
    case Waiting => 4
    case Resumed(_, _) => 3
    case Calling(_, _, _) => 2
    case Continuing(_, _) => 1
    case TimedOut => 1
    case _ => 0
  }

  function WasAborted(p: Phase): nat { if p.Aborted? then 1 else 0 }

  function IsLive(p: Phase): nat { if p.Waiting? || p.TimedOut? || p.Resumed? then 1 else 0 }

  // A successful release, or a step the runtime takes on its own.
  predicate Progress(kind: Kind) {
    !kind.Quiet? && !kind.Reset? && !kind.Foreign? && !kind.Parking?
  }

  lemma ReleaseSpends(w: World, w': World, kind: Kind)
    requires Inv(w) && Moves(w, w', kind) && (kind.Single? || kind.Start?)
    ensures Sum(w'.intents, Weight) < Sum(w.intents, Weight)
  {
    var id := ReleaseMovesOne(w, w', kind);
    SumUpdate(w.intents, id, w'.intents[id], Weight);
  }

  lemma ReceiptSpends(w: World, w': World, kind: Kind)
    requires Inv(w) && Moves(w, w', kind) && (kind.Expire? || kind.Arrive? || kind.Break?)
    ensures Sum(w'.intents, Weight) < Sum(w.intents, Weight)
  {
    ReceiptMovesOne(w, w', kind);
    SumUpdate(w.intents, kind.id, w'.intents[kind.id], Weight);
  }

  lemma CallbackSpends(w: World, w': World, kind: Kind)
    requires Inv(w) && Moves(w, w', kind) && (kind.Refuse? || kind.Abort? || kind.Send?)
    ensures Sum(w'.intents, Weight) < Sum(w.intents, Weight)
  {
    CallbackMovesOne(w, w', kind);
    SumUpdate(w.intents, kind.id, w'.intents[kind.id], Weight);
  }

  lemma LinkSpends(w: World, w': World, id: nat)
    requires Inv(w) && LinkMove(w, w', id)
    ensures Sum(w'.intents, Weight) < Sum(w.intents, Weight)
  {
    LinkMovesTwo(w, w', id);
    var mid, y := AfterFinish(w, id, w'.block), w.intents[id].phase.next.nextId;
    SumUpdate(w.intents, id, mid.intents[id], Weight);
    SumUpdate(mid.intents, y, w'.intents[y], Weight);
  }

  lemma PullSpends(w: World, w': World, id: nat)
    requires Inv(w) && PullMove(w, w', id)
    ensures Sum(w'.intents, Weight) < Sum(w.intents, Weight)
  {
    PullMovesTwo(w, w', id);
    var mid, y := AfterArrival(w, id, w'.block), w.gate.tail[0];
    SumUpdate(w.intents, id, mid.intents[id], Weight);
    SumUpdate(mid.intents, y, w'.intents[y], Weight);
  }

  lemma ProgressSpends(w: World, w': World, kind: Kind)
    requires Inv(w) && Moves(w, w', kind)
    ensures |w'.intents| == |w.intents| + if kind.Parking? then 1 else 0
    ensures Progress(kind) ==> Sum(w'.intents, Weight) < Sum(w.intents, Weight)
    ensures kind.Parking? ==> Sum(w'.intents, Weight) == Sum(w.intents, Weight) + 4
    ensures !Progress(kind) && !kind.Parking? ==> Sum(w'.intents, Weight) == Sum(w.intents, Weight)
  {
    if kind.Parking? {
      assert w'.intents == w.intents + [w'.intents[|w.intents|]];
      SumAppend(w.intents, w'.intents[|w.intents|], Weight);
    } else if kind.Pull? {
      PullSpends(w, w', kind.id);
    } else if kind.Link? {
      LinkSpends(w, w', kind.id);
    } else if kind.Single? || kind.Start? {
      ReleaseSpends(w, w', kind);
    } else if kind.Expire? || kind.Arrive? || kind.Break? {
      ReceiptSpends(w, w', kind);
    } else if kind.Refuse? || kind.Abort? || kind.Send? {
      CallbackSpends(w, w', kind);
    }
  }

  function CountProgress(kinds: seq<Kind>): nat {
    if |kinds| == 0 then 0 else CountProgress(kinds[..|kinds| - 1]) + if Progress(kinds[|kinds| - 1]) then 1 else 0
  }

  // What is left to spend, given how many intents have been accepted.
  function Budget(w: World): int {
    4 * |w.intents| - Sum(w.intents, Weight)
  }

  lemma BudgetStep(w: World, w': World, kind: Kind)
    requires Inv(w) && Moves(w, w', kind)
    ensures Budget(w) + (if Progress(kind) then 1 else 0) <= Budget(w')
  {
    ProgressSpends(w, w', kind);
  }

  lemma {:induction false} ProgressBudget(ws: seq<World>, kinds: seq<Kind>, k: nat)
    requires IsWalk(ws, kinds) && k < |ws|
    ensures Budget(ws[0]) + CountProgress(kinds[..k]) <= Budget(ws[k])
  {
    if k > 0 {
      ProgressBudget(ws, kinds, k - 1);
      BudgetStep(ws[k - 1], ws[k], kinds[k - 1]);
      assert kinds[..k][..k - 1] == kinds[..k - 1];
    }
  }

  // In any run from deployment, releases and runtime steps number at most four per accepted intent.
  lemma LinearlyManySteps(host: Host, ws: seq<World>, steps: seq<Step>)
    requires GateRun(host, ws, steps)
    ensures CountProgress(Kinds(host, ws, steps)) <= 4 * ws[|steps|].gate.submitted
  {
    var kinds := Kinds(host, ws, steps);
    RunIsWalk(host, ws, steps);
    ProgressBudget(ws, kinds, |steps|);
    assert kinds[..|steps|] == kinds;
  }

  // ---- quiescence and conservation ----

  // Nothing is due: no yield to time out, no callback, no call, no chain receipt.
  ghost predicate Quiescent(w: World) {
    forall s: Step ::
      w.block <= s.block && (s.event.Timeout? || s.event.Callback? || s.event.Target? || s.event.Chain?) ==>
      !Enabled(w, s)
  }

  lemma {:induction false} SumsAddUp(s: seq<Intent>)
    ensures Sum(s, WasSent) + Sum(s, WasRejected) + Sum(s, WasAborted) + Sum(s, IsLive) == |s|
  {
    if |s| > 0 {
      SumsAddUp(s[..|s| - 1]);
    }
  }

  lemma {:induction false} SumZero(s: seq<Intent>, f: Phase -> nat)
    requires forall i :: 0 <= i < |s| ==> f(s[i].phase) == 0
    ensures Sum(s, f) == 0
  {
    if |s| > 0 {
      SumZero(s[..|s| - 1], f);
    }
  }

  // In every reachable world the counters count what they say, they account for every intent exactly once,
  // and `pending` holds exactly the intents that wait or have a time-out callback due.
  lemma Conservation(host: Host, ws: seq<World>, steps: seq<Step>, k: nat)
    requires GateRun(host, ws, steps) && k < |ws|
    ensures var w := ws[k]; var g := w.gate;
            && g.submitted == g.nextIntentId == |g.usedNonces| == |w.intents|
            && g.submitted == g.dispatched + g.rejected + Sum(w.intents, WasAborted) + Sum(w.intents, IsLive)
            && g.dispatched == Sum(w.intents, WasSent) == |w.trace|
            && g.rejected == Sum(w.intents, WasRejected)
            && forall id :: id in g.pending <==> 0 <= id < |w.intents| && InPending(w.intents[id].phase)
  {
    Always(host, ws, steps, k);
    SumsAddUp(ws[k].intents);
  }

  lemma QuiescentPhases(w: World, i: nat)
    requires Inv(w) && Quiescent(w) && i < |w.intents|
    ensures w.intents[i].phase.Finished? || w.intents[i].phase.Rejected? || w.intents[i].phase.Aborted?
  {
    assert !Enabled(w, Step(w.block, Timeout(i)));
    assert !Enabled(w, Step(w.block, Callback(i, false)));
    assert !Enabled(w, Step(w.block, Target(i, false)));
    assert !Enabled(w, Step(w.block, Chain(i)));
  }

  // Once nothing is due, nothing is pending and every intent has been dispatched, rejected or has aborted.
  lemma QuiescentResolved(host: Host, ws: seq<World>, steps: seq<Step>, k: nat)
    requires GateRun(host, ws, steps) && k < |ws| && Quiescent(ws[k])
    ensures ws[k].gate.pending == map[]
    ensures ws[k].gate.submitted == ws[k].gate.dispatched + ws[k].gate.rejected + Sum(ws[k].intents, WasAborted)
  {
    var w := ws[k];
    Always(host, ws, steps, k);
    forall i | 0 <= i < |w.intents| ensures IsLive(w.intents[i].phase) == 0 && i !in w.gate.pending {
      QuiescentPhases(w, i);
    }
    SumZero(w.intents, IsLive);
    SumsAddUp(w.intents);
    assert forall id :: id !in w.gate.pending;
  }

  // Every batch of a run is over in a quiescent world, and has run completely there if and only if it repeats
  // no id, all its intents were waiting when it started, and none of them was disturbed since.
  lemma QuiescentBatch(host: Host, ws: seq<World>, steps: seq<Step>, m: nat, k: nat, ids: seq<u64>)
    requires GateRun(host, ws, steps) && SafeRun(host, ws, steps)
    requires m < k < |ws| && Kinds(host, ws, steps)[m] == Start(ids) && Quiescent(ws[k])
    ensures var kinds, b := Kinds(host, ws, steps), |ws[m].batches| + 1;
            && b <= |ws[k].batches| && OrderOf(ws[k], b) == ids && !InFlight(ws[k], b)
            && (|RanIn(ws[k].ran, b)| == |ids| <==>
                  Distinct(ids) && AllWait(ws[m], ids) && forall j :: m < j < k ==> !Disturbs(kinds[j], ids))
  {
    Always(host, ws, steps, k);
    forall i | 0 <= i < |ws[k].intents| ensures !Flight(ws[k].intents[i].phase, |ws[m].batches| + 1) {
      QuiescentPhases(ws[k], i);
    }
    CompletesIffUndisturbed(host, ws, steps, m, k, ids);
  }
}
