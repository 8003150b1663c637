/** How a chained batch ends: when it stalls, what stays frozen from then on, and that a batch with nothing in
    flight is over. */
module Batch {
  import opened Types
  import opened GateSpec
  import opened Runtime
  import opened StepEquations
  import opened Ledger
  import opened Discipline
  import opened Chain

  // ---- phases only move forward ----

  predicate Final(p: Phase) { p.Finished? || p.Rejected? || p.Aborted? }

  ghost predicate Forward(w: World, w': World, i: nat) {
    && i < |w.intents| && i < |w'.intents| && w'.intents[i].args == w.intents[i].args
    && (w'.intents[i].phase == Waiting ==> w.intents[i].phase == Waiting)
    && (Final(w.intents[i].phase) ==> w'.intents[i].phase == w.intents[i].phase)
  }

  predicate Releases(kind: Kind) { kind.Single? || kind.Start? || kind.Pull? || kind.Link? }

  lemma ReleasesForward(w: World, w': World, kind: Kind, i: nat)
    requires Inv(w) && Moves(w, w', kind) && i < |w.intents| && (kind.Single? || kind.Start?)
    ensures Forward(w, w', i)
  {
  }

  lemma ChainReleasesForward(w: World, w': World, kind: Kind, i: nat)
    requires Inv(w) && Moves(w, w', kind) && i < |w.intents| && (kind.Pull? || kind.Link?)
    ensures Forward(w, w', i)
  {
  }

  lemma ReceiptsForward(w: World, w': World, kind: Kind, i: nat)
    requires Inv(w) && Moves(w, w', kind) && i < |w.intents| && !Releases(kind)
    ensures Forward(w, w', i)
  {
    if kind.Parking? {
      assert w'.intents[..|w.intents|][i] == w.intents[i];
    }
  }

  // No intent waits again once it has stopped waiting, and a resolved intent stays as it is.
  lemma PhasesForward(w: World, w': World, kind: Kind, i: nat)
    requires Inv(w) && Moves(w, w', kind) && i < |w.intents|
    ensures Forward(w, w', i)
  {
    if kind.Single? || kind.Start? {
      ReleasesForward(w, w', kind, i);
    } else if Releases(kind) {
      ChainReleasesForward(w, w', kind, i);
    } else {
      ReceiptsForward(w, w', kind, i);
    }
  }

  // ---- where a batch without a receipt in flight stands ----

  // Nothing of the batch is due. Either all of it has run, or the intent whose turn it was is no longer
  // waiting: its callback failed, or it had left the queue before the chain reached it.
  ghost predicate Stopped(w: World, b: nat)
    requires ChainInv(w) && 1 <= b <= |w.batches|
  {
    assert BatchOk(w, b);
    var order, turn := OrderOf(w, b), |SentIn(w.trace, b)|;
    && |RanIn(w.ran, b)| == turn
    && (turn < |order| ==> w.intents[order[turn]].phase != Waiting)
    && (b == |w.batches| && |w.gate.tail| > 0 ==>
          && turn < |order|
          && (|| w.gate.tail == order[turn..]
              || (w.gate.tail == order[turn + 1..] && w.intents[order[turn]].phase.Aborted?)))
  }

  ghost predicate Settled(w: World, b: nat)
    requires ChainInv(w) && 1 <= b <= |w.batches|
  {
    InFlight(w, b) || Stopped(w, b)
  }

  ghost predicate AllSettled(w: World)
    requires ChainInv(w)
  {
    forall b :: 1 <= b <= |w.batches| ==> Settled(w, b)
  }

  lemma NoFlightNothingSent(w: World, w': World, kind: Kind, b: nat)
    requires Orderly(w, w', kind) && !InFlight(w, b)
    ensures SentIn(w'.trace, b) == SentIn(w.trace, b)
  {
    if kind.Send? {
      assert !Flight(w.intents[kind.id].phase, b);
      SentAppend(w.trace, w'.trace[|w.trace|], b);
    }
  }

  lemma NoFlightNothingRan(w: World, w': World, kind: Kind, b: nat)
    requires Orderly(w, w', kind) && !InFlight(w, b)
    ensures RanIn(w'.ran, b) == RanIn(w.ran, b)
  {
    if kind.Arrive? {
      assert !Flight(w.intents[kind.id].phase, b);
      RanAppend(w.ran, w'.ran[|w.ran|], b);
    } else if kind.Foreign? {
      RanAppend(w.ran, w'.ran[|w.ran|], b);
    }
  }

  // A batch with nothing in flight is not touched by any step.
  lemma NoFlightNoChange(w: World, w': World, kind: Kind, b: nat)
    requires Inv(w) && ChainInv(w) && Orderly(w, w', kind) && 1 <= b <= |w.batches| && !InFlight(w, b)
    ensures SentIn(w'.trace, b) == SentIn(w.trace, b) && RanIn(w'.ran, b) == RanIn(w.ran, b)
    ensures |w.batches| <= |w'.batches| && OrderOf(w', b) == OrderOf(w, b)
    ensures b == |w.batches| && !kind.Reset? && !kind.Start? ==> w'.gate.tail == w.gate.tail
  {
    NoFlightNothingSent(w, w', kind, b);
    NoFlightNothingRan(w, w', kind, b);
    if kind.Link? {
      assert !Flight(w.intents[kind.id].phase, b);
      OneToken(w, kind.id, kind.id);
    }
  }

  lemma StoppedStays(w: World, w': World, kind: Kind, b: nat)
    requires Inv(w) && ChainInv(w) && ChainInv(w') && Orderly(w, w', kind)
    requires 1 <= b <= |w.batches| && !InFlight(w, b) && Stopped(w, b)
    ensures |w.batches| <= |w'.batches| && Stopped(w', b)
  {
    NoFlightNoChange(w, w', kind, b);
    var order, turn := OrderOf(w, b), |SentIn(w.trace, b)|;
    assert BatchOk(w, b);
    if turn < |order| {
      PhasesForward(w, w', kind, order[turn]);
    }
  }

  lemma FlightNotReleased(w: World, w': World, kind: Kind, i: nat)
    requires Inv(w) && Moves(w, w', kind) && Releases(kind)
    requires i < |w.intents| && !w.intents[i].phase.Waiting?
    ensures i < |w'.intents| && (w'.intents[i] == w.intents[i] || kind in {Pull(i), Link(i)})
  {
  }

  lemma ReceiptTouches(w: World, w': World, kind: Kind, i: nat)
    requires Moves(w, w', kind) && !kind.Parking? && !Releases(kind)
    requires i < |w.intents| && !w.intents[i].phase.Waiting?
    ensures i < |w'.intents|
    ensures w'.intents[i] == w.intents[i] || kind in {Refuse(i), Abort(i), Send(i), Arrive(i), Break(i)}
  {
  }

  // Only its own receipt changes an intent that has one due.
  lemma FlightTouched(w: World, w': World, kind: Kind, i: nat)
    requires Inv(w) && Moves(w, w', kind) && i < |w.intents| && Flight(w.intents[i].phase, BatchOf(w.intents[i].phase))
    ensures i < |w'.intents|
    ensures w'.intents[i] == w.intents[i]
         || kind in {Refuse(i), Abort(i), Send(i), Arrive(i), Pull(i), Link(i), Break(i)}
  {
    if kind.Parking? {
      assert w'.intents[..|w.intents|][i] == w.intents[i];
    } else if Releases(kind) {
      FlightNotReleased(w, w', kind, i);
    } else {
      ReceiptTouches(w, w', kind, i);
    }
  }

  // The last flight of a batch ends only by a failed callback, by running the last call, or by a link that
  // finds the head of the tail no longer waiting.
  lemma FlightGoesOn(w: World, w': World, kind: Kind, b: nat, i: nat)
    requires Inv(w) && ChainInv(w) && Orderly(w, w', kind)
    requires 1 <= b <= |w.batches| && i < |w.intents| && Flight(w.intents[i].phase, b)
    ensures InFlight(w', b) || kind in {Abort(i), Arrive(i), Break(i)}
  {
    FlightTouched(w, w', kind, i);
    assert BatchOk(w, b) && FlightOk(w, i, b, |SentIn(w.trace, b)|, |RanIn(w.ran, b)|);
    if kind == Link(i) {
      assert Flight(w'.intents[w.intents[i].phase.next.nextId].phase, b);
    } else if w'.intents[i] == w.intents[i] || kind == Send(i) {
      assert Flight(w'.intents[i].phase, b);
    }
  }

  lemma AbortStops(w: World, w': World, b: nat, i: nat)
    requires Inv(w) && ChainInv(w) && ChainInv(w') && AbortMove(w, w', i)
    requires 1 <= b <= |w.batches| && Flight(w.intents[i].phase, b)
    ensures Stopped(w', b)
  {
    assert BatchOk(w, b) && FlightOk(w, i, b, |SentIn(w.trace, b)|, |RanIn(w.ran, b)|);
  }

  lemma LastCallRuns(w: World, b: nat, i: nat)
    requires Inv(w) && ChainInv(w) && 1 <= b <= |w.batches| && i < |w.intents|
    requires Flight(w.intents[i].phase, b) && w.intents[i].phase.Calling? && w.intents[i].phase.chained == None
    ensures |SentIn(w.trace, b)| == |OrderOf(w, b)| == |RanIn(w.ran, b)| + 1
    ensures b == |w.batches| ==> w.gate.tail == []
  {
    assert BatchOk(w, b) && FlightOk(w, i, b, |SentIn(w.trace, b)|, |RanIn(w.ran, b)|);
  }

  lemma ArriveStops(w: World, w': World, b: nat, i: nat)
    requires Inv(w) && ChainInv(w) && ChainInv(w') && ArriveMove(w, w', i)
    requires 1 <= b <= |w.batches| && Flight(w.intents[i].phase, b) && !Flight(w'.intents[i].phase, b)
    ensures Stopped(w', b)
  {
    LastCallRuns(w, b, i);
    RanAppend(w.ran, w'.ran[|w.ran|], b);
    assert BatchOk(w', b);
  }

  lemma BreakStops(w: World, w': World, b: nat, i: nat)
    requires Inv(w) && ChainInv(w) && ChainInv(w') && BreakMove(w, w', i)
    requires 1 <= b <= |w.batches| && Flight(w.intents[i].phase, b)
    ensures Stopped(w', b)
  {
    assert BatchOk(w, b) && FlightOk(w, i, b, |SentIn(w.trace, b)|, |RanIn(w.ran, b)|);
  }

  lemma FlightEnds(w: World, w': World, kind: Kind, b: nat, i: nat)
    requires Inv(w) && ChainInv(w) && ChainInv(w') && Orderly(w, w', kind)
    requires 1 <= b <= |w.batches| && i < |w.intents| && Flight(w.intents[i].phase, b) && !InFlight(w', b)
    ensures w'.batches == w.batches && Stopped(w', b)
  {
    FlightGoesOn(w, w', kind, b, i);
    assert !Flight(w'.intents[i].phase, b);
    if kind.Abort? {
      AbortStops(w, w', b, i);
    } else if kind.Arrive? {
      ArriveStops(w, w', b, i);
    } else {
      BreakStops(w, w', b, i);
    }
  }

  lemma SettledKept(w: World, w': World, kind: Kind)
    requires Inv(w) && ChainInv(w) && AllSettled(w) && Orderly(w, w', kind) && ChainInv(w')
    ensures AllSettled(w')
  {
    forall b | 1 <= b <= |w'.batches| ensures Settled(w', b) {
      if b > |w.batches| {
        assert Flight(w'.intents[kind.ids[0]].phase, b);
      } else {
        assert Settled(w, b);
        if InFlight(w, b) {
          var i :| 0 <= i < |w.intents| && Flight(w.intents[i].phase, b);
          if !InFlight(w', b) {
            FlightEnds(w, w', kind, b, i);
          }
        } else {
          StoppedStays(w, w', kind, b);
        }
      }
    }
  }

  lemma {:induction false} SettledHolds(ws: seq<World>, kinds: seq<Kind>, k: nat)
    requires IsWalk(ws, kinds) && FromGenesis(ws[0]) && SafeSteps(ws, kinds) && k < |ws|
    ensures ChainInv(ws[k]) && AllSettled(ws[k])
  {
    ChainHolds(ws, kinds, k);
    if k > 0 {
      SettledHolds(ws, kinds, k - 1);
      SettledKept(ws[k - 1], ws[k], kinds[k - 1]);
    }
  }

  // ---- exactly the safe steps keep the chain invariant ----

  ghost predicate Good(w: World) {
    Inv(w) && ChainInv(w) && AllSettled(w)
  }

  // The receipt that was to release the next intent finds no tail any more.
  lemma LiveResetBreaks(w: World, w': World)
    requires Good(w) && Moves(w, w', Reset) && TokenLive(w)
    ensures !ChainInv(w')
  {
    InvKept(w, w', Reset);
    var i :| 0 <= i < |w.intents| && Token(w.intents[i].phase);
    if ChainInv(w') {
      TokenNamesTail(w', i, i);
      assert false;
    }
  }

  // While a batch is in flight, releasing the head of its tail would make a second flight.
  lemma PullDoubles(w: World, w': World, id: nat, i: nat)
    requires Good(w) && Moves(w, w', Pull(id)) && 1 <= |w.batches|
    requires i < |w.intents| && Flight(w.intents[i].phase, |w.batches|)
    ensures !ChainInv(w')
  {
    var b, y := |w.batches|, w.gate.tail[0];
    if !Flight(w'.intents[i].phase, b) {
      LastCallRuns(w, b, i);
    } else if ChainInv(w') {
      OneFlight(w', b, i, y);
    }
  }

  // An intent of a batch whose callback is due is the one whose turn it is.
  lemma ResumedInTurn(w: World, i: nat, b: nat)
    requires ChainInv(w) && 1 <= b <= |w.batches| && i < |w.intents|
    requires w.intents[i].phase.Resumed? && Flight(w.intents[i].phase, b)
    ensures |SentIn(w.trace, b)| < |OrderOf(w, b)| && OrderOf(w, b)[|SentIn(w.trace, b)|] == i
  {
    assert FlightOk(w, i, b, |SentIn(w.trace, b)|, |RanIn(w.ran, b)|);
  }

  // When none is, the intent whose turn it is no longer waits, but the head of the tail does.
  lemma PullSkips(w: World, w': World, id: nat)
    requires Good(w) && Moves(w, w', Pull(id)) && 1 <= |w.batches| && !InFlight(w, |w.batches|)
    ensures !ChainInv(w')
  {
    var b, y := |w.batches|, w.gate.tail[0];
    assert Settled(w, b) && BatchOk(w, b);
    if ChainInv(w') {
      ResumedInTurn(w', y, b);
    }
  }

  lemma PullBreaks(w: World, w': World, id: nat)
    requires Good(w) && Moves(w, w', Pull(id))
    ensures !ChainInv(w')
  {
    if InFlight(w, |w.batches|) {
      var i :| 0 <= i < |w.intents| && Flight(w.intents[i].phase, |w.batches|);
      PullDoubles(w, w', id, i);
    } else {
      PullSkips(w, w', id);
    }
  }

  lemma KeptExactly(w: World, w': World, kind: Kind)
    requires Good(w) && Moves(w, w', kind)
    ensures ChainInv(w') <==> SafeStep(w, kind)
  {
    if kind.Reset? && TokenLive(w) {
      LiveResetBreaks(w, w');
    } else if kind.Pull? {
      PullBreaks(w, w', kind.id);
    } else {
      ChainKept(w, w', kind);
    }
  }

  lemma KeptSafely(w: World, w': World, kind: Kind)
    requires Good(w) && Moves(w, w', kind) && ChainInv(w')
    ensures SafeStep(w, kind) && Good(w')
  {
    KeptExactly(w, w', kind);
    InvKept(w, w', kind);
    SettledKept(w, w', kind);
  }

  lemma {:induction false} KeptSoFar(ws: seq<World>, kinds: seq<Kind>, k: nat)
    requires IsWalk(ws, kinds) && FromGenesis(ws[0]) && k < |ws|
    requires forall m :: 0 <= m <= k ==> ChainInv(ws[m])
    ensures Good(ws[k])
  {
    if k > 0 {
      KeptSoFar(ws, kinds, k - 1);
      KeptSafely(ws[k - 1], ws[k], kinds[k - 1]);
    }
  }

  // The exact condition: one token at a time, and every batch in its order, from the deployment on, if and only
  // if the owner never resets under a live chain receipt and the gate never calls its own continue_chain with
  // effect.
  lemma OrderKeptExactly(host: Host, ws: seq<World>, steps: seq<Step>)
    requires GateRun(host, ws, steps)
    ensures (forall k :: 0 <= k < |ws| ==> ChainInv(ws[k])) <==> SafeRun(host, ws, steps)
  {
    var kinds := Kinds(host, ws, steps);
    RunIsWalk(host, ws, steps);
    if forall k :: 0 <= k < |ws| ==> ChainInv(ws[k]) {
      forall k | 0 <= k < |kinds| ensures SafeStep(ws[k], kinds[k]) {
        KeptSoFar(ws, kinds, k);
        KeptSafely(ws[k], ws[k + 1], kinds[k]);
      }
    } else if SafeSteps(ws, kinds) {
      forall k | 0 <= k < |ws| ensures ChainInv(ws[k]) {
        ChainHolds(ws, kinds, k);
      }
    }
  }

  // ---- a batch that is over ----

  lemma NoFlightFromOther(w: World, w': World, kind: Kind, b: nat, i: nat)
    requires Orderly(w, w', kind) && 1 <= b <= |w.batches| && |w.batches| == w.gate.activeBatchId
    requires i < |w.intents| && i < |w'.intents| && !Flight(w.intents[i].phase, b)
    requires kind.Link? ==> BatchOf(w.intents[kind.id].phase) != b
    ensures !Flight(w'.intents[i].phase, b)
  {
    if kind.Parking? {
      assert w'.intents[..|w.intents|][i] == w.intents[i];
    }
  }

  lemma NoFlightRevives(w: World, w': World, kind: Kind, b: nat)
    requires Inv(w) && Orderly(w, w', kind) && 1 <= b <= |w.batches| && !InFlight(w, b)
    ensures !InFlight(w', b)
  {
    forall i | 0 <= i < |w'.intents| ensures !Flight(w'.intents[i].phase, b) {
      if i < |w.intents| {
        assert !Flight(w.intents[i].phase, b);
        if kind.Link? {
          assert !Flight(w.intents[kind.id].phase, b);
        }
        NoFlightFromOther(w, w', kind, b, i);
      }
    }
  }

  // What a batch has dispatched once nothing of it is in flight is all it ever dispatches.
  ghost predicate Over(w: World, w': World, b: nat) {
    && |w.batches| <= |w'.batches| && !InFlight(w', b)
    && SentIn(w'.trace, b) == SentIn(w.trace, b) && RanIn(w'.ran, b) == RanIn(w.ran, b)
  }

  lemma OverStep(w0: World, w: World, w': World, kind: Kind, b: nat)
    requires Over(w0, w, b) && 1 <= b <= |w0.batches| && Inv(w) && ChainInv(w) && Orderly(w, w', kind)
    ensures Over(w0, w', b)
  {
    NoFlightRevives(w, w', kind, b);
    NoFlightNoChange(w, w', kind, b);
  }

  lemma {:induction false} WalkOver(ws: seq<World>, kinds: seq<Kind>, j: nat, k: nat, b: nat)
    requires |ws| == |kinds| + 1 && j <= k < |ws| && 1 <= b <= |ws[j].batches| && !InFlight(ws[j], b)
    requires forall m :: j <= m <= k ==> Good(ws[m])
    requires forall m :: j <= m < k ==> Orderly(ws[m], ws[m + 1], kinds[m])
    ensures Over(ws[j], ws[k], b)
  {
    if j < k {
      WalkOver(ws, kinds, j, k - 1, b);
      assert Good(ws[k - 1]);
      OverStep(ws[j], ws[k - 1], ws[k], kinds[k - 1], b);
    }
  }

  // Ordering across batches: once nothing of a batch is in flight, it dispatches and runs nothing more, so a
  // batch started from then on comes after it entirely. (Witnesses shows that a batch may be started earlier
  // than that, when the last callback of the one before it is still due, and may then overtake it.)
  lemma BatchOver(host: Host, ws: seq<World>, steps: seq<Step>, j: nat, k: nat, b: nat)
    requires GateRun(host, ws, steps) && SafeRun(host, ws, steps) && j <= k < |ws|
    requires 1 <= b <= |ws[j].batches| && !InFlight(ws[j], b)
    ensures SentIn(ws[k].trace, b) == SentIn(ws[j].trace, b) && RanIn(ws[k].ran, b) == RanIn(ws[j].ran, b)
  {
    RunIsSafeWalk(host, ws, steps);
    forall m | j <= m <= k ensures Good(ws[m]) {
      SettledHolds(ws, Kinds(host, ws, steps), m);
    }
    WalkOver(ws, Kinds(host, ws, steps), j, k, b);
  }

  // ---- stalls ----

  // The chain has stopped with intents still to release.
  ghost predicate Stalled(w: World) {
    |w.gate.tail| > 0 && !TokenLive(w)
  }

  lemma NoTokenAfter(w: World, w': World, id: nat)
    requires Inv(w) && ChainInv(w) && (AbortMove(w, w', id) || BreakMove(w, w', id)) && Token(w.intents[id].phase)
    ensures Stalled(w')
  {
    forall j | 0 <= j < |w'.intents| ensures !Token(w'.intents[j].phase) {
      if Token(w'.intents[j].phase) {
        OneToken(w, id, j);
      }
    }
    OneToken(w, id, id);
  }

  lemma TokenGoesOn(w: World, w': World, kind: Kind)
    requires Inv(w) && ChainInv(w) && Orderly(w, w', kind)
    requires kind.Send? || kind.Arrive? || kind.Link?
    requires Token(w.intents[kind.id].phase)
    ensures !Stalled(w')
  {
    var id := kind.id;
    TokenNamesTail(w, id, id);
    if kind.Link? {
      var y := w.intents[id].phase.next.nextId;
      assert |w'.gate.tail| > 0 ==> Token(w'.intents[y].phase);
    } else {
      assert Token(w'.intents[id].phase);
    }
  }

  // A step of the token's receipt stalls the chain exactly when its callback fails or its link finds the
  // head of the tail no longer waiting.
  lemma TokenStep(w: World, w': World, kind: Kind)
    requires Inv(w) && ChainInv(w) && Orderly(w, w', kind)
    requires kind.Abort? || kind.Send? || kind.Arrive? || kind.Link? || kind.Break?
    requires Token(w.intents[kind.id].phase)
    ensures |w.gate.tail| > 0 && w.gate.tail[0] < |w.intents|
    ensures Stalled(w') <==> kind.Abort? || kind.Break?
    ensures kind.Break? <==> w.intents[kind.id].phase.Continuing? && w.intents[w.gate.tail[0]].phase != Waiting
  {
    var id := kind.id;
    TokenNamesTail(w, id, id);
    assert BatchOk(w, BatchOf(w.intents[id].phase));
    assert w.gate.tail[0] in OrderOf(w, BatchOf(w.intents[id].phase));
    if kind.Abort? || kind.Break? {
      NoTokenAfter(w, w', id);
    } else {
      TokenGoesOn(w, w', kind);
    }
  }

  // Only its own receipt changes the chain token, and never by rejecting its intent.
  lemma TokenTouched(w: World, w': World, kind: Kind, i: nat)
    requires Inv(w) && ChainInv(w) && Orderly(w, w', kind) && i < |w.intents| && Token(w.intents[i].phase)
    ensures i < |w'.intents|
    ensures w'.intents[i] == w.intents[i] || kind in {Abort(i), Send(i), Arrive(i), Link(i), Break(i)}
  {
    var b := BatchOf(w.intents[i].phase);
    FlightTouched(w, w', kind, i);
    TokenNamesTail(w, i, i);
    assert FlightOk(w, i, b, |SentIn(w.trace, b)|, |RanIn(w.ran, b)|);
  }

  predicate TokenLost(w: World, kind: Kind) {
    (kind.Abort? || kind.Break?) && kind.id < |w.intents| && Token(w.intents[kind.id].phase)
  }

  lemma TailKept(w: World, w': World, kind: Kind)
    requires Orderly(w, w', kind) && !kind.Start? && |w'.gate.tail| > 0
    ensures |w.gate.tail| > 0
  {
  }

  // Nothing but a failure of the token's own receipt can stall the chain.
  lemma ChainGoesOn(w: World, w': World, kind: Kind)
    requires Inv(w) && ChainInv(w) && Orderly(w, w', kind) && !Stalled(w) && !TokenLost(w, kind)
    ensures !Stalled(w')
  {
    if kind.Start? {
      assert |w'.gate.tail| > 0 ==> Token(w'.intents[kind.ids[0]].phase);
    } else if |w'.gate.tail| > 0 {
      TailKept(w, w', kind);
      var i :| 0 <= i < |w.intents| && Token(w.intents[i].phase);
      TokenTouched(w, w', kind, i);
      if kind in {Send(i), Arrive(i), Link(i)} {
        TokenGoesOn(w, w', kind);
      } else {
        assert Token(w'.intents[i].phase);
      }
    }
  }

  // The step makes the approve callback of the chain's receipt fail, or lets continue_chain find that the head
  // of the tail is no longer waiting.
  predicate BreaksChain(w: World, s: Step)
    requires Enabled(w, s)
  {
    match s.event
    case Callback(id, abort) => abort && Token(w.intents[id].phase)
    case Chain(_) => |w.gate.tail| > 0 && w.gate.tail[0] < |w.intents| && w.intents[w.gate.tail[0]].phase != Waiting
    case _ => false
  }

  lemma KindOfToken(host: Host, w: World, s: Step)
    requires Inv(w) && ChainInv(w) && Enabled(w, s) && !KindOf(host, w, s).Pull?
    requires s.event.Callback? || s.event.Target? || s.event.Chain?
    requires Token(w.intents[s.event.id].phase)
    ensures var kind := KindOf(host, w, s);
            && (kind.Abort? || kind.Send? || kind.Arrive? || kind.Link? || kind.Break?) && kind.id == s.event.id
            && (kind.Abort? <==> s.event.Callback? && s.event.abort)
            && (s.event.Chain? <==> kind.Link? || kind.Break?)
  {
    var id := s.event.id;
    TokenNamesTail(w, id, id);
    var b := BatchOf(w.intents[id].phase);
    assert FlightOk(w, id, b, |SentIn(w.trace, b)|, |RanIn(w.ran, b)|);
    if s.event.Callback? {
      NoSequenceOverflow(w, id);
      CountersBounded(w, id);
    }
  }

  lemma StallStep(host: Host, w: World, s: Step, w': World)
    requires Inv(w) && ChainInv(w) && Enabled(w, s) && Orderly(w, w', KindOf(host, w, s)) && !Stalled(w)
    ensures Stalled(w') <==> BreaksChain(w, s)
  {
    var kind := KindOf(host, w, s);
    if TokenLost(w, kind) || BreaksChain(w, s) {
      KindOfToken(host, w, s);
      TokenStep(w, w', kind);
    } else {
      ChainGoesOn(w, w', kind);
    }
  }

  // Of all the steps a run can take, exactly those stall a chain that was not stalled.
  lemma StallsExactlyWhen(host: Host, ws: seq<World>, steps: seq<Step>, k: nat)
    requires GateRun(host, ws, steps) && SafeRun(host, ws, steps) && k < |steps| && !Stalled(ws[k])
    ensures Stalled(ws[k + 1]) <==> BreaksChain(ws[k], steps[k])
  {
    var kinds := Kinds(host, ws, steps);
    RunIsSafeWalk(host, ws, steps);
    ChainHolds(ws, kinds, k);
    StallStep(host, ws[k], steps[k], ws[k + 1]);
  }

  // What a stalled gate looks like: the intent whose turn it was failed in its callback, or left the queue
  // before its turn.
  lemma StallCause(w: World)
    requires Inv(w) && ChainInv(w) && AllSettled(w) && Stalled(w)
    ensures 1 <= |w.batches| && Stopped(w, |w.batches|)
    ensures var b := |w.batches|;
            var order, turn := OrderOf(w, b), |SentIn(w.trace, b)|;
            turn < |order| && order[turn] < |w.intents|
            && ((w.gate.tail == order[turn + 1..] && w.intents[order[turn]].phase.Aborted?)
                || (w.gate.tail == order[turn..] && w.intents[order[turn]].phase != Waiting))
  {
    var b := |w.batches|;
    assert Settled(w, b) && BatchOk(w, b);
    if InFlight(w, b) {
      var i :| 0 <= i < |w.intents| && Flight(w.intents[i].phase, b);
      assert FlightOk(w, i, b, |SentIn(w.trace, b)|, |RanIn(w.ran, b)|);
      assert Token(w.intents[i].phase);
      assert false;
    }
  }

  lemma NoFlightWhenStalled(w: World)
    requires Inv(w) && ChainInv(w) && Stalled(w)
    ensures 1 <= |w.batches| && !InFlight(w, |w.batches|)
  {
    var b := |w.batches|;
    if InFlight(w, b) {
      var i :| 0 <= i < |w.intents| && Flight(w.intents[i].phase, b);
      assert BatchOk(w, b) && FlightOk(w, i, b, |SentIn(w.trace, b)|, |RanIn(w.ran, b)|);
      assert Token(w.intents[i].phase);
      assert false;
    }
  }

  lemma NoTokenFromOther(w: World, w': World, kind: Kind, j: nat)
    requires Orderly(w, w', kind) && !kind.Start? && j < |w.intents| && j < |w'.intents|
    requires forall i :: 0 <= i < |w.intents| ==> !Token(w.intents[i].phase)
    ensures !Token(w'.intents[j].phase)
  {
    if kind.Parking? {
      assert w'.intents[..|w.intents|][j] == w.intents[j];
    }
  }

  // Only starting a batch makes a token where there was none.
  lemma NoNewToken(w: World, w': World, kind: Kind, j: nat)
    requires Inv(w) && ChainInv(w) && !TokenLive(w) && Orderly(w, w', kind) && !kind.Start?
    requires j < |w'.intents|
    ensures !Token(w'.intents[j].phase)
  {
    if j < |w.intents| {
      assert !Token(w.intents[j].phase);
      NoTokenFromOther(w, w', kind, j);
    }
  }

  // Once stalled, nothing but the owner's reset moves the tail, dispatches for that batch, or starts another.
  lemma StallFrozen(w: World, w': World, kind: Kind)
    requires Inv(w) && ChainInv(w) && AllSettled(w) && Stalled(w) && Orderly(w, w', kind) && !kind.Reset?
    ensures !kind.Start?
    ensures Stalled(w') && w'.gate.tail == w.gate.tail && w'.batches == w.batches
    ensures SentIn(w'.trace, |w.batches|) == SentIn(w.trace, |w.batches|)
    ensures RanIn(w'.ran, |w.batches|) == RanIn(w.ran, |w.batches|)
  {
    var b := |w.batches|;
    NoFlightWhenStalled(w);
    NoFlightNoChange(w, w', kind, b);
    forall j | 0 <= j < |w'.intents| ensures !Token(w'.intents[j].phase) {
      NoNewToken(w, w', kind, j);
    }
  }

  ghost predicate Frozen(w: World, w': World) {
    && Stalled(w') && w'.gate.tail == w.gate.tail && w'.batches == w.batches
    && SentIn(w'.trace, |w.batches|) == SentIn(w.trace, |w.batches|)
    && RanIn(w'.ran, |w.batches|) == RanIn(w.ran, |w.batches|)
  }

  lemma FrozenStep(w0: World, w: World, w': World, kind: Kind)
    requires Frozen(w0, w) && Good(w) && Orderly(w, w', kind) && !kind.Reset?
    ensures Frozen(w0, w')
  {
    StallFrozen(w, w', kind);
  }

  // From a stall on, each step that is not a reset leaves everything frozen.
  lemma {:induction false} WalkFrozen(ws: seq<World>, kinds: seq<Kind>, j: nat, k: nat)
    requires |ws| == |kinds| + 1 && j <= k < |ws| && Stalled(ws[j])
    requires forall m :: j <= m <= k ==> Good(ws[m])
    requires forall m :: j <= m < k ==> !kinds[m].Reset? && Orderly(ws[m], ws[m + 1], kinds[m])
    ensures Frozen(ws[j], ws[k])
  {
    if j < k {
      WalkFrozen(ws, kinds, j, k - 1);
      assert Good(ws[k - 1]);
      FrozenStep(ws[j], ws[k - 1], ws[k], kinds[k - 1]);
    }
  }

  lemma FrozenBetween(ws: seq<World>, kinds: seq<Kind>, j: nat, k: nat)
    requires IsWalk(ws, kinds) && FromGenesis(ws[0]) && SafeSteps(ws, kinds) && j <= k < |ws|
    requires Stalled(ws[j])
    requires forall m :: j <= m < k ==> !kinds[m].Reset?
    ensures Frozen(ws[j], ws[k])
  {
    forall m | j <= m <= k ensures Good(ws[m]) {
      SettledHolds(ws, kinds, m);
    }
    WalkFrozen(ws, kinds, j, k);
  }

  lemma RefusesBatches(g: GateState)
    requires |g.tail| > 0
    ensures forall ctx, ids :: ResumeBatch(g, ctx, ids).Panic?
  {
  }

  // Over a run: from a stall until the owner resets the tail, the tail and the batch's dispatches are
  // frozen, no batch starts, and the contract refuses every resume_batch_chained.
  lemma StalledUntilReset(host: Host, ws: seq<World>, steps: seq<Step>, j: nat, k: nat)
    requires GateRun(host, ws, steps) && SafeRun(host, ws, steps) && j <= k < |ws|
    requires Stalled(ws[j])
    requires forall m :: j <= m < k ==> !Kinds(host, ws, steps)[m].Reset?
    ensures Frozen(ws[j], ws[k])
    ensures forall ctx, ids :: ResumeBatch(ws[k].gate, ctx, ids).Panic?
  {
    RunIsSafeWalk(host, ws, steps);
    FrozenBetween(ws, Kinds(host, ws, steps), j, k);
    RefusesBatches(ws[k].gate);
  }
}
