/** What breaks the order of a chained batch, and what the owner and the approver can do to rule it out.

    A step is safe unless it clears the batch tail while a chain receipt is live, or runs a call that the gate made
    to its own continue_chain and that releases an intent. Batch shows that the order is kept exactly in the runs
    whose steps are all safe. A run is disciplined if the owner resets only without a live chain receipt and the
    approver releases no intent whose call is such a call; then it is safe. */
module Discipline {
  import opened Types
  import opened GateSpec
  import opened Runtime
  import opened StepEquations
  import opened Ledger

  // A receipt that will go on to release the next intent of its batch.
  predicate Token(p: Phase) {
    match p
    case Resumed(signal, _) => signal.nextIntentId.Some?
    case Calling(_, chained, _) => chained.Some?
    case Continuing(_, _) => true
    case _ => false
  }

  ghost predicate TokenLive(w: World) {
    exists i :: 0 <= i < |w.intents| && Token(w.intents[i].phase)
  }

  // ---- on the walk ----

  // No reset under a live chain, and no release by a call the gate made to itself.
  ghost predicate SafeStep(w: World, kind: Kind) {
    && (kind.Reset? ==> !TokenLive(w))
    && !kind.Pull?
  }

  ghost predicate SafeSteps(ws: seq<World>, kinds: seq<Kind>)
    requires |ws| == |kinds| + 1
  {
    forall k :: 0 <= k < |kinds| ==> SafeStep(ws[k], kinds[k])
  }

  // The equation of a step that is not such a release.
  ghost predicate Orderly(w: World, w': World, kind: Kind) {
    Moves(w, w', kind) && !kind.Pull?
  }

  // ---- on the run ----

  ghost predicate SafeRun(host: Host, ws: seq<World>, steps: seq<Step>)
    requires IsRun(host, ws, steps)
  {
    SafeSteps(ws, Kinds(host, ws, steps))
  }

  lemma RunIsSafeWalk(host: Host, ws: seq<World>, steps: seq<Step>)
    requires GateRun(host, ws, steps) && SafeRun(host, ws, steps)
    ensures IsWalk(ws, Kinds(host, ws, steps)) && SafeSteps(ws, Kinds(host, ws, steps))
  {
    RunIsWalk(host, ws, steps);
  }

  // The pending entry does not call the gate's own continue_chain.
  predicate OtherCall(host: Host, w: World, id: nat) {
    id in w.gate.pending ==> SelfChain(host, w.gate.pending[id].call) == None
  }

  // Whoever releases intents with approval has looked at their pending entries.
  predicate Vets(host: Host, w: World, s: Step)
    requires Enabled(w, s)
  {
    match KindOf(host, w, s)
    case Single(id, approve) => approve ==> OtherCall(host, w, id)
    case Start(ids) => forall q :: 0 <= q < |ids| ==> OtherCall(host, w, ids[q])
    case _ => true
  }

  ghost predicate Disciplined(host: Host, ws: seq<World>, steps: seq<Step>)
    requires IsRun(host, ws, steps)
  {
    forall k :: 0 <= k < |steps| ==>
      Vets(host, ws[k], steps[k]) && (KindOf(host, ws[k], steps[k]).Reset? ==> !TokenLive(ws[k]))
  }

  predicate Approved(p: Phase) { p.Calling? || (p.Resumed? && p.signal.approve) }

  ghost predicate TailFree(host: Host, w: World, y: u64) {
    y < |w.intents| && SelfChain(host, w.intents[y].args.call) == None
  }

  // No approved intent, and none that the chain has yet to release, calls the gate's continue_chain.
  ghost predicate SelfFree(host: Host, w: World) {
    && (forall i :: 0 <= i < |w.intents| && Approved(w.intents[i].phase) ==>
          SelfChain(host, w.intents[i].args.call) == None)
    && (forall q :: 0 <= q < |w.gate.tail| ==> TailFree(host, w, w.gate.tail[q]))
  }

  lemma NoPull(host: Host, w: World, s: Step)
    requires Inv(w) && SelfFree(host, w) && Enabled(w, s)
    ensures !KindOf(host, w, s).Pull?
  {
    if s.event.Target? {
      assert Approved(w.intents[s.event.id].phase);
    }
  }

  lemma StartedFree(host: Host, w: World, w': World, ids: seq<u64>)
    requires Inv(w) && SelfFree(host, w) && StartMove(w, w', ids)
    requires forall q :: 0 <= q < |ids| ==> OtherCall(host, w, ids[q])
    ensures SelfFree(host, w')
  {
    assert forall q :: 0 <= q < |ids| ==> OtherCall(host, w, ids[q]) && ids[q] in w.gate.pending;
  }

  lemma ReleasedFree(host: Host, w: World, w': World, kind: Kind, s: Step)
    requires Inv(w) && SelfFree(host, w) && Enabled(w, s) && Vets(host, w, s)
    requires kind == KindOf(host, w, s) && Moves(w, w', kind) && (kind.Single? || kind.Start?)
    ensures SelfFree(host, w')
  {
    if kind.Start? {
      StartedFree(host, w, w', kind.ids);
    } else {
      assert kind.approve ==> OtherCall(host, w, kind.id);
      forall q | 0 <= q < |w'.gate.tail| ensures TailFree(host, w', w'.gate.tail[q]) {
        assert TailFree(host, w, w.gate.tail[q]);
      }
    }
  }

  lemma LinkedFree(host: Host, w: World, w': World, id: nat)
    requires Inv(w) && SelfFree(host, w) && LinkMove(w, w', id)
    ensures SelfFree(host, w')
  {
    assert TailFree(host, w, w.gate.tail[0]);
    forall q | 0 <= q < |w'.gate.tail| ensures TailFree(host, w', w'.gate.tail[q]) {
      assert TailFree(host, w, w.gate.tail[q + 1]);
    }
  }

  lemma ParkedFree(host: Host, w: World, w': World)
    requires SelfFree(host, w) && ParkingMove(w, w')
    ensures SelfFree(host, w')
  {
    assert w'.intents == w.intents + [w'.intents[|w.intents|]];
    forall q | 0 <= q < |w'.gate.tail| ensures TailFree(host, w', w'.gate.tail[q]) {
      assert TailFree(host, w, w.gate.tail[q]);
    }
  }

  lemma OthersApproveNothing(w: World, w': World, kind: Kind)
    requires Moves(w, w', kind)
    requires !kind.Parking? && !kind.Single? && !kind.Start? && !kind.Link? && !kind.Pull?
    ensures |w'.intents| == |w.intents| && (w'.gate.tail == w.gate.tail || w'.gate.tail == [])
    ensures forall i :: 0 <= i < |w.intents| ==>
              && w'.intents[i].args == w.intents[i].args
              && (Approved(w'.intents[i].phase) ==> Approved(w.intents[i].phase))
  {
  }

  // The steps that approve nothing: the tail is kept or cleared, and the intents keep their calls.
  lemma OthersFree(host: Host, w: World, w': World, kind: Kind)
    requires Inv(w) && SelfFree(host, w) && Moves(w, w', kind)
    requires !kind.Parking? && !kind.Single? && !kind.Start? && !kind.Link? && !kind.Pull?
    ensures SelfFree(host, w')
  {
    OthersApproveNothing(w, w', kind);
    forall q | 0 <= q < |w'.gate.tail| ensures TailFree(host, w', w'.gate.tail[q]) {
      assert TailFree(host, w, w.gate.tail[q]);
    }
  }

  lemma FreeKept(host: Host, w: World, w': World, s: Step)
    requires Inv(w) && SelfFree(host, w) && Enabled(w, s) && Vets(host, w, s) && Moves(w, w', KindOf(host, w, s))
    ensures !KindOf(host, w, s).Pull? && SelfFree(host, w')
  {
    var kind := KindOf(host, w, s);
    NoPull(host, w, s);
    if kind.Single? || kind.Start? {
      ReleasedFree(host, w, w', kind, s);
    } else if kind.Parking? {
      ParkedFree(host, w, w');
    } else if kind.Link? {
      LinkedFree(host, w, w', kind.id);
    } else {
      OthersFree(host, w, w', kind);
    }
  }

  lemma {:induction false} FreeAlways(host: Host, ws: seq<World>, steps: seq<Step>, k: nat)
    requires GateRun(host, ws, steps) && Disciplined(host, ws, steps) && k < |ws|
    ensures SelfFree(host, ws[k])
  {
    if k > 0 {
      FreeAlways(host, ws, steps, k - 1);
      Always(host, ws, steps, k - 1);
      FreeKept(host, ws[k - 1], ws[k], steps[k - 1]);
    }
  }

  // A disciplined run is safe.
  lemma DisciplinedIsSafe(host: Host, ws: seq<World>, steps: seq<Step>)
    requires GateRun(host, ws, steps) && Disciplined(host, ws, steps)
    ensures SafeRun(host, ws, steps)
  {
    RunIsWalk(host, ws, steps);
    forall k | 0 <= k < |steps| ensures SafeStep(ws[k], KindOf(host, ws[k], steps[k])) {
      FreeAlways(host, ws, steps, k);
      NoPull(host, ws[k], steps[k]);
    }
  }
}
