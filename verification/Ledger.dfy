/** The bookkeeping invariant, which every step keeps, and a run as a walk: worlds that satisfy the invariant,
    joined by steps that satisfy their equations. */
module Ledger {
  import opened Types
  import opened Runtime
  import opened StepEquations

  // ---- the bookkeeping invariant is kept ----

  ghost predicate NewlySent(w: World, w': World, t: Sent) {
    w'.trace == w.trace + [t]
  }

  function SeqOf(p: Phase): Option<u32> { if p.Resumed? then p.signal.sequenceNumber else None }

  // One intent moves to `phase`, and the books move with it.
  ghost predicate OneMoves(w: World, w': World, id: nat, phase: Phase) {
    && id < |w.intents|
    && var prev := w.intents[id].phase;
    && w'.intents == w.intents[id := Intent(w.intents[id].args, w'.block, phase)]
    && SameBooks(w, w', if InPending(phase) then w.gate.pending else w.gate.pending - {id})
    && (InPending(phase) ==> InPending(prev))
    && |w.batches| <= |w'.batches| == w'.gate.activeBatchId && BatchOf(phase) <= |w'.batches|
    && w'.gate.rejected == w.gate.rejected + WasRejected(phase) - WasRejected(prev)
    && w'.gate.dispatched == w.gate.dispatched + WasSent(phase) - WasSent(prev)
    && (WasSent(prev) == 1 ==> WasSent(phase) == 1 && BatchOf(phase) == BatchOf(prev))
    && (phase.Calling? ==> phase.call == w.intents[id].args.call)
    && (if WasSent(prev) == WasSent(phase) then w'.trace == w.trace
        else NewlySent(w, w', Sent(id, w.intents[id].args.call, BatchOf(phase), SeqOf(prev), w'.block)))
  }

  lemma OneMoveTraces(w: World, w': World, id: nat, phase: Phase)
    requires Inv(w) && OneMoves(w, w', id, phase)
    ensures TraceOk(w')
  {
    forall k | 0 <= k < |w.trace| ensures w'.trace[k] == w.trace[k] && SentOk(w', w'.trace[k]) {
      assert SentOk(w, w.trace[k]);
    }
    if WasSent(w.intents[id].phase) != WasSent(phase) {
      forall k | 0 <= k < |w.trace| ensures w.trace[k].id != id {
        assert SentOk(w, w.trace[k]);
      }
      assert w'.trace[|w.trace|].id == id;
    }
    forall i | 0 <= i < |w'.intents| && WasSent(w'.intents[i].phase) == 1 ensures InTrace(w', i) {
      if WasSent(w.intents[i].phase) == 1 {
        assert InTrace(w, i);
        var k :| 0 <= k < |w.trace| && w.trace[k].id == i;
        assert w'.trace[k].id == i;
      }
    }
  }

  lemma OneMoveKeeps(w: World, w': World, id: nat, phase: Phase)
    requires Inv(w) && OneMoves(w, w', id, phase)
    ensures Inv(w')
  {
    SumUpdate(w.intents, id, w'.intents[id], WasSent);
    SumUpdate(w.intents, id, w'.intents[id], WasRejected);
    OneMoveTraces(w, w', id, phase);
  }

  lemma ParkingTraces(w: World, w': World)
    requires Inv(w) && w'.trace == w.trace && w'.batches == w.batches
    requires exists it :: w'.intents == w.intents + [it] && it.phase == Waiting
    ensures TraceOk(w')
  {
    assert forall k :: 0 <= k < |w.trace| ==> SentOk(w, w.trace[k]);
    forall i | 0 <= i < |w'.intents| && WasSent(w'.intents[i].phase) == 1 ensures InTrace(w', i) {
      assert InTrace(w, i);
    }
  }

  lemma ParkingCounts(w: World, w': World)
    requires Inv(w) && ParkingMove(w, w')
    ensures CountersOk(w') && |w'.gate.usedNonces| == |w.intents| + 1
  {
    var it := w'.intents[|w.intents|];
    assert w'.intents == w.intents + [it];
    SumAppend(w.intents, it, WasSent);
    SumAppend(w.intents, it, WasRejected);
    var key :| key !in w.gate.usedNonces && w'.gate.usedNonces.Keys == w.gate.usedNonces.Keys + {key};
    assert |w'.gate.usedNonces.Keys| == |w.intents| + 1;
  }

  lemma ParkingKeeps(w: World, w': World)
    requires Inv(w) && ParkingMove(w, w')
    ensures Inv(w')
  {
    assert w'.intents == w.intents + [w'.intents[|w.intents|]];
    ParkingTraces(w, w');
    ParkingCounts(w, w');
  }

  // A release and a runtime step each move one intent. A Link first finishes one, then moves the next.

  lemma ReleaseMovesOne(w: World, w': World, kind: Kind) returns (id: nat)
    requires Inv(w) && Moves(w, w', kind) && (kind.Single? || kind.Start?)
    ensures id < |w'.intents| && OneMoves(w, w', id, w'.intents[id].phase)
  {
    id := if kind.Start? then kind.ids[0] else kind.id;
  }

  lemma CallbackMovesOne(w: World, w': World, kind: Kind)
    requires Inv(w) && Moves(w, w', kind) && (kind.Refuse? || kind.Abort? || kind.Send?)
    ensures kind.id < |w'.intents| && OneMoves(w, w', kind.id, w'.intents[kind.id].phase)
  {
    if kind.Refuse? && w.intents[kind.id].phase.Resumed? {
      assert w.gate.pending - {kind.id} == w.gate.pending;
    }
    if kind.Abort? {
      assert w.gate.pending - {kind.id} == w.gate.pending;
    }
    if kind.Send? {
      assert w.gate.pending - {kind.id} == w.gate.pending;
    }
  }

  lemma ReceiptMovesOne(w: World, w': World, kind: Kind)
    requires Inv(w) && Moves(w, w', kind) && (kind.Expire? || kind.Arrive? || kind.Break?)
    ensures kind.id < |w'.intents| && OneMoves(w, w', kind.id, w'.intents[kind.id].phase)
  {
    if kind.Arrive? {
      assert w.gate.pending - {kind.id} == w.gate.pending;
    } else if kind.Break? {
      assert w.gate.pending - {kind.id} == w.gate.pending;
    }
  }

  function AfterFinish(w: World, id: nat, block: u64): World
    requires id < |w.intents|
  {
    var done := Intent(w.intents[id].args, block, Finished(BatchOf(w.intents[id].phase)));
    w.(intents := w.intents[id := done], block := block)
  }

  lemma LinkMovesTwo(w: World, w': World, id: nat)
    requires Inv(w) && LinkMove(w, w', id)
    ensures var mid := AfterFinish(w, id, w'.block);
            && OneMoves(w, mid, id, Finished(w.intents[id].phase.batch)) && Inv(mid)
            && w.intents[id].phase.next.nextId != id
            && OneMoves(mid, w', w.intents[id].phase.next.nextId, w'.intents[w.intents[id].phase.next.nextId].phase)
  {
    var mid := AfterFinish(w, id, w'.block);
    assert w.gate.pending - {id} == w.gate.pending;
    OneMoveKeeps(w, mid, id, Finished(w.intents[id].phase.batch));
  }

  function AfterArrival(w: World, id: nat, block: u64): World
    requires id < |w.intents| && w.intents[id].phase.Calling?
  {
    w.(intents := w.intents[id := Intent(w.intents[id].args, block, AfterCall(w.intents[id].phase))], block := block)
  }

  // A Pull first lets the call run, then moves the intent it releases.
  lemma PullMovesTwo(w: World, w': World, id: nat)
    requires Inv(w) && PullMove(w, w', id)
    ensures var mid := AfterArrival(w, id, w'.block);
            && OneMoves(w, mid, id, AfterCall(w.intents[id].phase)) && Inv(mid)
            && w.gate.tail[0] != id
            && OneMoves(mid, w', w.gate.tail[0], w'.intents[w.gate.tail[0]].phase)
  {
    var mid := AfterArrival(w, id, w'.block);
    assert w.gate.pending - {id} == w.gate.pending;
    OneMoveKeeps(w, mid, id, AfterCall(w.intents[id].phase));
  }

  lemma SameIntentsKeep(w: World, w': World)
    requires Inv(w) && w'.intents == w.intents && w'.trace == w.trace && w'.batches == w.batches
    requires SameBooks(w, w', w.gate.pending) && SameCounters(w, w') && w'.gate.activeBatchId == w.gate.activeBatchId
    ensures Inv(w')
  {
    assert forall k :: 0 <= k < |w.trace| ==> SentOk(w, w.trace[k]);
    forall i | 0 <= i < |w'.intents| && WasSent(w'.intents[i].phase) == 1 ensures InTrace(w', i) {
      assert InTrace(w, i);
    }
  }

  lemma InvKept(w: World, w': World, kind: Kind)
    requires Inv(w) && Moves(w, w', kind)
    ensures Inv(w')
  {
    if kind.Quiet? || kind.Reset? || kind.Foreign? {
      SameIntentsKeep(w, w');
    } else if kind.Parking? {
      ParkingKeeps(w, w');
    } else if kind.Link? {
      LinkMovesTwo(w, w', kind.id);
      var y := w.intents[kind.id].phase.next.nextId;
      OneMoveKeeps(AfterFinish(w, kind.id, w'.block), w', y, w'.intents[y].phase);
    } else if kind.Pull? {
      PullMovesTwo(w, w', kind.id);
      var y := w.gate.tail[0];
      OneMoveKeeps(AfterArrival(w, kind.id, w'.block), w', y, w'.intents[y].phase);
    } else if kind.Single? || kind.Start? {
      var id := ReleaseMovesOne(w, w', kind);
      OneMoveKeeps(w, w', id, w'.intents[id].phase);
    } else {
      if kind.Expire? || kind.Arrive? || kind.Break? {
        ReceiptMovesOne(w, w', kind);
      } else {
        CallbackMovesOne(w, w', kind);
      }
      OneMoveKeeps(w, w', kind.id, w'.intents[kind.id].phase);
    }
  }

  // Every world a run passes through satisfies the invariant, and every step its equation.
  lemma {:induction false} Always(host: Host, ws: seq<World>, steps: seq<Step>, k: nat)
    requires IsRun(host, ws, steps) && FromGenesis(ws[0]) && k < |ws|
    ensures Inv(ws[k])
    ensures k < |steps| ==> Moves(ws[k], ws[k + 1], KindOf(host, ws[k], steps[k]))
  {
    if k > 0 {
      Always(host, ws, steps, k - 1);
      InvKept(ws[k - 1], ws[k], KindOf(host, ws[k - 1], steps[k - 1]));
    }
    if k < |steps| {
      StepMoves(host, ws[k], steps[k]);
    }
  }

  // A run of the gate from its deployment, and the kind of each of its steps.
  ghost predicate GateRun(host: Host, ws: seq<World>, steps: seq<Step>) {
    IsRun(host, ws, steps) && FromGenesis(ws[0])
  }

  ghost function Kinds(host: Host, ws: seq<World>, steps: seq<Step>): (kinds: seq<Kind>)
    requires IsRun(host, ws, steps)
    ensures |kinds| == |steps|
    ensures forall k :: 0 <= k < |kinds| ==> kinds[k] == KindOf(host, ws[k], steps[k])
  {
    seq(|steps|, k requires 0 <= k < |steps| => KindOf(host, ws[k], steps[k]))
  }

  // Worlds that satisfy the invariant, joined by steps of the given kinds.
  ghost predicate IsWalk(ws: seq<World>, kinds: seq<Kind>) {
    && |ws| == |kinds| + 1
    && (forall k :: 0 <= k < |ws| ==> Inv(ws[k]))
    && (forall k :: 0 <= k < |kinds| ==> Moves(ws[k], ws[k + 1], kinds[k]))
  }

  lemma RunIsWalk(host: Host, ws: seq<World>, steps: seq<Step>)
    requires GateRun(host, ws, steps)
    ensures IsWalk(ws, Kinds(host, ws, steps))
  {
    forall k | 0 <= k < |ws|
      ensures Inv(ws[k])
      ensures k < |steps| ==> Moves(ws[k], ws[k + 1], KindOf(host, ws[k], steps[k]))
    {
      Always(host, ws, steps, k);
    }
  }
}
