/** A completed chained batch does to its target what a plain loop over its intents would do. */
module Completion {
  import opened Types
  import opened GateSpec
  import opened Runtime
  import opened StepEquations
  import opened Ledger
  import opened Discipline
  import opened Chain
  import opened Batch

  // ---- when a batch completes ----

  predicate Distinct(s: seq<u64>) {
    forall j, k :: 0 <= j < k < |s| ==> s[j] != s[k]
  }

  // Nothing but the chain of batch `b` has taken this intent: it did not time out, was not released
  // otherwise, and its callback did not fail.
  predicate LeftToChain(p: Phase, b: nat) {
    p == Waiting || Flight(p, b) || p == Finished(b)
  }

  lemma {:induction false} SentInFromTrace(t: seq<Sent>, b: nat, k: nat)
    requires k < |SentIn(t, b)|
    ensures SentIn(t, b)[k] in t && SentIn(t, b)[k].batch == b
  {
    var front := SentIn(t[..|t| - 1], b);
    if k < |front| {
      SentInFromTrace(t[..|t| - 1], b, k);
    }
  }

  lemma {:induction false} TraceIntoSentIn(t: seq<Sent>, j: nat)
    requires j < |t|
    ensures t[j] in SentIn(t, t[j].batch)
  {
    if j < |t| - 1 {
      TraceIntoSentIn(t[..|t| - 1], j);
    }
  }

  lemma CompletedOnlyIfLeft(w: World, b: nat, k: nat)
    requires Inv(w) && ChainInv(w) && 1 <= b <= |w.batches| && !InFlight(w, b)
    requires k < |OrderOf(w, b)| == |RanIn(w.ran, b)|
    ensures OrderOf(w, b)[k] < |w.intents| && w.intents[OrderOf(w, b)[k]].phase == Finished(b)
  {
    assert BatchOk(w, b);
    SentInFromTrace(w.trace, b, k);
    var t := SentIn(w.trace, b)[k];
    var j :| 0 <= j < |w.trace| && w.trace[j] == t;
    assert SentOk(w, w.trace[j]);
    assert !Flight(w.intents[t.id].phase, b);
  }

  lemma FinishedWasSent(w: World, b: nat, i: nat) returns (k: nat)
    requires Inv(w) && ChainInv(w) && 1 <= b <= |w.batches|
    requires i < |w.intents| && w.intents[i].phase == Finished(b)
    ensures k < |SentIn(w.trace, b)| <= |OrderOf(w, b)| && OrderOf(w, b)[k] == i
  {
    assert BatchOk(w, b);
    assert InTrace(w, i);
    var j :| 0 <= j < |w.trace| && w.trace[j].id == i;
    assert SentOk(w, w.trace[j]);
    TraceIntoSentIn(w.trace, j);
    k :| 0 <= k < |SentIn(w.trace, b)| && SentIn(w.trace, b)[k] == w.trace[j];
  }

  // No intent is dispatched twice, so a batch dispatches no id twice.
  lemma {:induction false} SentApart(t: seq<Sent>, b: nat, j: nat, k: nat)
    requires forall x, y :: 0 <= x < y < |t| ==> t[x].id != t[y].id
    requires j < k < |SentIn(t, b)|
    ensures SentIn(t, b)[j].id != SentIn(t, b)[k].id
  {
    var front := t[..|t| - 1];
    if k < |SentIn(front, b)| {
      SentApart(front, b, j, k);
    } else {
      SentInFromTrace(front, b, j);
    }
  }

  // A batch that repeats an id never dispatches the second occurrence.
  lemma RepeatNotSent(w: World, b: nat, p: nat, q: nat)
    requires Inv(w) && ChainInv(w) && 1 <= b <= |w.batches|
    requires p < q < |OrderOf(w, b)| && OrderOf(w, b)[p] == OrderOf(w, b)[q]
    ensures |SentIn(w.trace, b)| <= q
  {
    assert BatchOk(w, b);
    if q < |SentIn(w.trace, b)| {
      SentApart(w.trace, b, p, q);
    }
  }

  lemma CompleteIsDistinct(w: World, b: nat)
    requires Inv(w) && ChainInv(w) && 1 <= b <= |w.batches| && |RanIn(w.ran, b)| == |OrderOf(w, b)|
    ensures Distinct(OrderOf(w, b))
  {
    assert BatchOk(w, b);
    forall p, q | 0 <= p < q < |OrderOf(w, b)| ensures OrderOf(w, b)[p] != OrderOf(w, b)[q] {
      if OrderOf(w, b)[p] == OrderOf(w, b)[q] {
        RepeatNotSent(w, b, p, q);
      }
    }
  }

  lemma LeftIsComplete(w: World, b: nat)
    requires Good(w) && 1 <= b <= |w.batches| && !InFlight(w, b) && Distinct(OrderOf(w, b)) && BatchOk(w, b)
    requires forall k :: 0 <= k < |OrderOf(w, b)| ==> LeftToChain(w.intents[OrderOf(w, b)[k]].phase, b)
    ensures |RanIn(w.ran, b)| == |OrderOf(w, b)|
  {
    var order, turn := OrderOf(w, b), |SentIn(w.trace, b)|;
    assert Settled(w, b);
    if turn < |order| {
      assert !Flight(w.intents[order[turn]].phase, b);
      var k := FinishedWasSent(w, b, order[turn]);
    }
  }

  // A batch with nothing left in flight has run completely if and only if it repeats no id and every one of its
  // intents was left to the chain.
  lemma CompletesExactlyWhen(w: World, b: nat)
    requires Good(w) && 1 <= b <= |w.batches| && !InFlight(w, b)
    ensures BatchOk(w, b)
    ensures |RanIn(w.ran, b)| == |OrderOf(w, b)| <==>
              && Distinct(OrderOf(w, b))
              && forall k :: 0 <= k < |OrderOf(w, b)| ==> LeftToChain(w.intents[OrderOf(w, b)[k]].phase, b)
    ensures |RanIn(w.ran, b)| == |OrderOf(w, b)| && b == |w.batches| ==> w.gate.tail == []
  {
    var order := OrderOf(w, b);
    assert BatchOk(w, b) && Settled(w, b);
    if |RanIn(w.ran, b)| == |order| {
      CompleteIsDistinct(w, b);
      forall k | 0 <= k < |order| ensures LeftToChain(w.intents[order[k]].phase, b) {
        CompletedOnlyIfLeft(w, b, k);
      }
    } else if Distinct(order) && forall k :: 0 <= k < |order| ==> LeftToChain(w.intents[order[k]].phase, b) {
      LeftIsComplete(w, b);
    }
  }

  // In every world of a safe run, a batch that repeats an id has not dispatched its second occurrence,
  // and has not run completely.
  lemma RepeatedIdStalls(host: Host, ws: seq<World>, steps: seq<Step>, k: nat, b: nat, p: nat, q: nat)
    requires GateRun(host, ws, steps) && SafeRun(host, ws, steps) && k < |ws| && 1 <= b <= |ws[k].batches|
    requires p < q < |OrderOf(ws[k], b)| && OrderOf(ws[k], b)[p] == OrderOf(ws[k], b)[q]
    ensures |RanIn(ws[k].ran, b)| <= |SentIn(ws[k].trace, b)| <= q
  {
    RunIsSafeWalk(host, ws, steps);
    ChainHolds(ws, Kinds(host, ws, steps), k);
    assert BatchOk(ws[k], b);
    RepeatNotSent(ws[k], b, p, q);
  }

  // ---- histories only grow ----

  ghost predicate Grows(w: World, w': World) {
    && w.batches <= w'.batches && w.trace <= w'.trace && w.ran <= w'.ran && |w.intents| <= |w'.intents|
    && w.gate.usedNonces.Keys <= w'.gate.usedNonces.Keys
    && forall i :: 0 <= i < |w.intents| ==> w'.intents[i].args == w.intents[i].args
  }

  lemma StepGrows(w: World, w': World, kind: Kind)
    requires Inv(w) && Moves(w, w', kind)
    ensures Grows(w, w')
  {
    assert kind.Parking? ==> |w'.intents| == |w.intents| + 1;
    forall i | 0 <= i < |w.intents| ensures i < |w'.intents| && w'.intents[i].args == w.intents[i].args {
      PhasesForward(w, w', kind, i);
    }
  }

  lemma GrowsOn(w: World, w': World, w'': World)
    requires Grows(w, w') && Grows(w', w'')
    ensures Grows(w, w'')
  {
  }

  ghost predicate GrowsAt(ws: seq<World>, m: nat) {
    m + 1 < |ws| && Grows(ws[m], ws[m + 1])
  }

  lemma {:induction false} GrowsAlong(ws: seq<World>, j: nat, k: nat)
    requires j <= k < |ws| && forall m :: j <= m < k ==> GrowsAt(ws, m)
    ensures Grows(ws[j], ws[k])
  {
    if j < k {
      GrowsAlong(ws, j, k - 1);
      assert GrowsAt(ws, k - 1);
      GrowsOn(ws[j], ws[k - 1], ws[k]);
    }
  }

  lemma WalkGrows(ws: seq<World>, kinds: seq<Kind>, j: nat, k: nat)
    requires IsWalk(ws, kinds) && j <= k < |ws|
    ensures Grows(ws[j], ws[k])
  {
    forall m | j <= m < k ensures GrowsAt(ws, m) {
      StepGrows(ws[m], ws[m + 1], kinds[m]);
    }
    GrowsAlong(ws, j, k);
  }

  lemma StartedAs(ws: seq<World>, kinds: seq<Kind>, m: nat, k: nat, ids: seq<u64>)
    requires IsWalk(ws, kinds) && m < k < |ws| && kinds[m] == Start(ids)
    requires Grows(ws[m + 1], ws[k])
    ensures |ws[m].batches| + 1 <= |ws[k].batches| && OrderOf(ws[k], |ws[m].batches| + 1) == ids
  {
    assert Moves(ws[m], ws[m + 1], kinds[m]);
    assert ws[m + 1].batches == ws[m].batches + [ids];
    assert ws[k].batches[|ws[m].batches|] == ws[m + 1].batches[|ws[m].batches|];
  }

  // What becomes of a started batch in the history.
  lemma BatchSpan(ws: seq<World>, kinds: seq<Kind>, m: nat, k: nat, ids: seq<u64>)
    requires IsWalk(ws, kinds) && FromGenesis(ws[0]) && SafeSteps(ws, kinds) && m < k < |ws| && kinds[m] == Start(ids)
    ensures Good(ws[m]) && Good(ws[k]) && Grows(ws[m], ws[k])
    ensures |ws[m].batches| + 1 <= |ws[k].batches| && OrderOf(ws[k], |ws[m].batches| + 1) == ids
  {
    SettledHolds(ws, kinds, m);
    SettledHolds(ws, kinds, k);
    WalkGrows(ws, kinds, m, k);
    WalkGrows(ws, kinds, m + 1, k);
    StartedAs(ws, kinds, m, k, ids);
  }

  // ---- a batch nobody disturbs ----

  // A step that takes an intent of `ids` away from its chain: it times out, the approver releases it on its
  // own, or its callback fails.
  predicate Disturbs(kind: Kind, ids: seq<u64>) {
    (kind.Expire? || kind.Single? || kind.Abort?) && kind.id in ids
  }

  ghost predicate HeldOne(w: World, b: nat, i: nat) {
    && i < |w.intents| && LeftToChain(w.intents[i].phase, b)
    && (w.intents[i].phase == Waiting ==> b == |w.batches| && i in w.gate.tail)
  }

  // Every intent of batch `b` is with its chain, and those that wait are still in the tail.
  ghost predicate Held(w: World, b: nat, ids: seq<u64>) {
    && 1 <= b <= |w.batches| && OrderOf(w, b) == ids
    && forall i :: i in ids ==> HeldOne(w, b, i)
  }

  ghost predicate AllWait(w: World, ids: seq<u64>) {
    forall i :: i in ids ==> i < |w.intents| && w.intents[i].phase == Waiting
  }

  lemma HeldFromStart(w: World, w': World, ids: seq<u64>)
    requires Inv(w) && StartMove(w, w', ids) && AllWait(w, ids)
    ensures Held(w', |w'.batches|, ids)
  {
    assert ids == [ids[0]] + ids[1..];
  }

  lemma WaitingMeansInFlight(w: World, b: nat, ids: seq<u64>, q: nat)
    requires Good(w) && Held(w, b, ids) && Distinct(ids)
    requires q < |ids| && ids[q] < |w.intents| && w.intents[ids[q]].phase == Waiting
    ensures InFlight(w, b)
  {
    assert HeldOne(w, b, ids[q]) && Settled(w, b) && BatchOk(w, b);
    if !InFlight(w, b) {
      var turn := |SentIn(w.trace, b)|;
      assert HeldOne(w, b, ids[turn]);
      assert !Flight(w.intents[ids[turn]].phase, b);
      var k := FinishedWasSent(w, b, ids[turn]);
    }
  }

  lemma TailMeansToken(w: World, b: nat, f: nat)
    requires ChainInv(w) && 1 <= b == |w.batches| && |w.gate.tail| > 0
    requires f < |w.intents| && Flight(w.intents[f].phase, b)
    ensures Token(w.intents[f].phase)
  {
    assert BatchOk(w, b) && FlightOk(w, f, b, |SentIn(w.trace, b)|, |RanIn(w.ran, b)|);
  }

  // As long as an intent of the batch waits, a receipt is due that will release the next one.
  lemma NoneWaitsWithoutToken(w: World, b: nat, ids: seq<u64>, i: nat)
    requires Good(w) && Held(w, b, ids) && Distinct(ids) && i in ids && !TokenLive(w)
    ensures i < |w.intents| && w.intents[i].phase != Waiting
  {
    var q :| 0 <= q < |ids| && ids[q] == i;
    assert HeldOne(w, b, i);
    if w.intents[i].phase == Waiting {
      WaitingMeansInFlight(w, b, ids, q);
      var f :| 0 <= f < |w.intents| && Flight(w.intents[f].phase, b);
      TailMeansToken(w, b, f);
    }
  }

  lemma HeldLink(w: World, w': World, id: nat, b: nat, i: nat)
    requires Inv(w) && ChainInv(w) && LinkMove(w, w', id) && 1 <= b <= |w.batches| && HeldOne(w, b, i)
    ensures HeldOne(w', b, i)
  {
    OneToken(w, id, id);
    assert w.gate.tail == [w.gate.tail[0]] + w'.gate.tail;
  }

  lemma LeftAlone(w: World, w': World, kind: Kind, b: nat, i: nat)
    requires Inv(w) && Orderly(w, w', kind) && HeldOne(w, b, i) && !Flight(w.intents[i].phase, b)
    requires !kind.Link? && !kind.Start? && !kind.Reset?
    requires (kind.Expire? || kind.Single? || kind.Abort?) ==> kind.id != i
    ensures i < |w'.intents| && w'.intents[i] == w.intents[i]
    ensures w'.batches == w.batches && w'.gate.tail == w.gate.tail
  {
    if kind.Parking? {
      assert w'.intents[..|w.intents|][i] == w.intents[i];
    }
  }

  lemma HeldOther(w: World, w': World, kind: Kind, b: nat, i: nat)
    requires Inv(w) && ChainInv(w) && Orderly(w, w', kind) && 1 <= b <= |w.batches| && HeldOne(w, b, i)
    requires !kind.Link? && !kind.Start? && !kind.Reset?
    requires (kind.Expire? || kind.Single? || kind.Abort?) ==> kind.id != i
    ensures HeldOne(w', b, i)
  {
    if Flight(w.intents[i].phase, b) {
      assert FlightOk(w, i, b, |SentIn(w.trace, b)|, |RanIn(w.ran, b)|);
      FlightTouched(w, w', kind, i);
    } else {
      LeftAlone(w, w', kind, b, i);
    }
  }

  lemma HeldOneKept(w: World, w': World, kind: Kind, b: nat, ids: seq<u64>, i: nat)
    requires Good(w) && Orderly(w, w', kind) && SafeStep(w, kind) && Distinct(ids)
    requires Held(w, b, ids) && i in ids && !Disturbs(kind, ids)
    ensures b <= |w'.batches| && HeldOne(w', b, i)
  {
    assert HeldOne(w, b, i);
    if kind.Reset? {
      NoneWaitsWithoutToken(w, b, ids, i);
    } else if kind.Link? {
      HeldLink(w, w', kind.id, b, i);
    } else if kind.Start? {
      assert w'.intents[i] == w.intents[i];
    } else {
      HeldOther(w, w', kind, b, i);
    }
  }

  lemma HeldKept(w: World, w': World, kind: Kind, b: nat, ids: seq<u64>)
    requires Good(w) && Orderly(w, w', kind) && SafeStep(w, kind) && Distinct(ids)
    requires Held(w, b, ids) && !Disturbs(kind, ids)
    ensures Held(w', b, ids)
  {
    StepGrows(w, w', kind);
    forall i | i in ids ensures HeldOne(w', b, i) {
      HeldOneKept(w, w', kind, b, ids, i);
    }
  }

  // A step that leaves the intents of `ids` to their chain.
  ghost predicate Undisturbed(w: World, w': World, kind: Kind, ids: seq<u64>) {
    Good(w) && Orderly(w, w', kind) && SafeStep(w, kind) && !Disturbs(kind, ids)
  }

  lemma HeldStep(w: World, w': World, kind: Kind, b: nat, ids: seq<u64>)
    requires Undisturbed(w, w', kind, ids) && Held(w, b, ids) && Distinct(ids)
    ensures Held(w', b, ids)
  {
    HeldKept(w, w', kind, b, ids);
  }

  lemma {:induction false} HeldAlong(ws: seq<World>, kinds: seq<Kind>, j: nat, k: nat, b: nat, ids: seq<u64>)
    requires |ws| == |kinds| + 1 && j <= k < |ws| && Held(ws[j], b, ids) && Distinct(ids)
    requires forall m :: j <= m < k ==> Undisturbed(ws[m], ws[m + 1], kinds[m], ids)
    ensures Held(ws[k], b, ids)
  {
    if j < k {
      HeldAlong(ws, kinds, j, k - 1, b, ids);
      HeldStep(ws[k - 1], ws[k], kinds[k - 1], b, ids);
    }
  }

  lemma HeldOnWalk(ws: seq<World>, kinds: seq<Kind>, m: nat, k: nat, ids: seq<u64>)
    requires IsWalk(ws, kinds) && FromGenesis(ws[0]) && SafeSteps(ws, kinds) && m < k < |ws|
    requires kinds[m] == Start(ids) && Distinct(ids) && AllWait(ws[m], ids)
    requires forall j :: m < j < k ==> !Disturbs(kinds[j], ids)
    ensures Held(ws[k], |ws[m].batches| + 1, ids)
  {
    forall j | m < j < k ensures Undisturbed(ws[j], ws[j + 1], kinds[j], ids) {
      SettledHolds(ws, kinds, j);
    }
    assert Orderly(ws[m], ws[m + 1], kinds[m]);
    HeldFromStart(ws[m], ws[m + 1], ids);
    HeldAlong(ws, kinds, m + 1, k, |ws[m].batches| + 1, ids);
  }

  lemma HeldIsLeft(w: World, b: nat, ids: seq<u64>)
    requires Held(w, b, ids)
    ensures forall q :: 0 <= q < |ids| ==> ids[q] < |w.intents| && LeftToChain(w.intents[ids[q]].phase, b)
  {
    forall q | 0 <= q < |ids| ensures ids[q] < |w.intents| && LeftToChain(w.intents[ids[q]].phase, b) {
      assert HeldOne(w, b, ids[q]);
    }
  }

  // ---- exactly when a batch completes ----

  // A timed-out intent is rejected next, and a resolved one stays as it is.
  lemma RestingStays(w: World, w': World, kind: Kind, i: nat)
    requires Inv(w) && Moves(w, w', kind) && i < |w.intents|
    requires w.intents[i].phase.TimedOut? || Final(w.intents[i].phase)
    ensures i < |w'.intents| && (w'.intents[i].phase == w.intents[i].phase || w'.intents[i].phase.Rejected?)
  {
    if kind.Parking? {
      assert w'.intents[..|w.intents|][i] == w.intents[i];
    } else if Releases(kind) {
      FlightNotReleased(w, w', kind, i);
    } else {
      ReceiptTouches(w, w', kind, i);
    }
  }

  lemma LostStays(w: World, w': World, kind: Kind, b: nat, i: nat)
    requires Inv(w) && Moves(w, w', kind) && i < |w.intents| && !LeftToChain(w.intents[i].phase, b)
    ensures i < |w'.intents| && !LeftToChain(w'.intents[i].phase, b)
  {
    if w.intents[i].phase.TimedOut? || Final(w.intents[i].phase) {
      RestingStays(w, w', kind, i);
    } else {
      FlightTouched(w, w', kind, i);
    }
  }

  ghost predicate Lost(w: World, b: nat, i: nat) {
    i < |w.intents| && !LeftToChain(w.intents[i].phase, b)
  }

  ghost predicate SoundStep(w: World, w': World, kind: Kind) { Inv(w) && Moves(w, w', kind) }

  lemma LostStep(w: World, w': World, kind: Kind, b: nat, i: nat)
    requires SoundStep(w, w', kind) && Lost(w, b, i)
    ensures Lost(w', b, i)
  {
    LostStays(w, w', kind, b, i);
  }

  lemma {:induction false} LostOnward(ws: seq<World>, kinds: seq<Kind>, j: nat, k: nat, b: nat, i: nat)
    requires |ws| == |kinds| + 1 && j <= k < |ws| && Lost(ws[j], b, i)
    requires forall m :: j <= m < k ==> SoundStep(ws[m], ws[m + 1], kinds[m])
    ensures Lost(ws[k], b, i)
  {
    if j < k {
      LostOnward(ws, kinds, j, k - 1, b, i);
      LostStep(ws[k - 1], ws[k], kinds[k - 1], b, i);
    }
  }

  lemma LostAlong(ws: seq<World>, kinds: seq<Kind>, j: nat, k: nat, b: nat, i: nat)
    requires IsWalk(ws, kinds) && j <= k < |ws| && Lost(ws[j], b, i)
    ensures Lost(ws[k], b, i)
  {
    assert forall m :: j <= m < k ==> SoundStep(ws[m], ws[m + 1], kinds[m]);
    LostOnward(ws, kinds, j, k, b, i);
  }

  lemma DisturbedIsLost(w: World, w': World, kind: Kind, b: nat)
    requires Inv(w) && Moves(w, w', kind) && 1 <= b && (kind.Expire? || kind.Single? || kind.Abort?)
    ensures kind.id < |w'.intents| && !LeftToChain(w'.intents[kind.id].phase, b)
  {
  }

  // An intent of the batch that did not wait when it started, or that a later step disturbed, is lost to it.
  lemma LostSomewhere(ws: seq<World>, kinds: seq<Kind>, m: nat, k: nat, ids: seq<u64>, b: nat) returns (i: u64)
    requires IsWalk(ws, kinds) && m < k < |ws| && kinds[m] == Start(ids) && b == |ws[m].batches| + 1
    requires !AllWait(ws[m], ids) || exists j :: m < j < k && Disturbs(kinds[j], ids)
    ensures i in ids && i < |ws[k].intents| && !LeftToChain(ws[k].intents[i].phase, b)
  {
    assert Moves(ws[m], ws[m + 1], kinds[m]);
    if !AllWait(ws[m], ids) {
      i :| i in ids && !(i < |ws[m].intents| && ws[m].intents[i].phase == Waiting);
      LostAlong(ws, kinds, m, k, b, i);
    } else {
      var j :| m < j < k && Disturbs(kinds[j], ids);
      i := kinds[j].id;
      DisturbedIsLost(ws[j], ws[j + 1], kinds[j], b);
      LostAlong(ws, kinds, j + 1, k, b, i);
    }
  }

  lemma LostIsIncomplete(w: World, b: nat, i: u64)
    requires Good(w) && 1 <= b <= |w.batches| && !InFlight(w, b)
    requires i in OrderOf(w, b) && i < |w.intents| && !LeftToChain(w.intents[i].phase, b)
    ensures |RanIn(w.ran, b)| != |OrderOf(w, b)|
  {
    CompletesExactlyWhen(w, b);
    var q :| 0 <= q < |OrderOf(w, b)| && OrderOf(w, b)[q] == i;
  }

  // Once nothing of a batch is in flight, it has run completely if and only if it repeats no id, all its intents
  // were waiting when it started, and since then none of them timed out, was released otherwise or failed in
  // its callback. Nothing else matters, whatever runs in between.
  lemma CompletesIffUndisturbed(host: Host, ws: seq<World>, steps: seq<Step>, m: nat, k: nat, ids: seq<u64>)
    requires GateRun(host, ws, steps) && SafeRun(host, ws, steps)
    requires m < k < |ws| && Kinds(host, ws, steps)[m] == Start(ids) && !InFlight(ws[k], |ws[m].batches| + 1)
    ensures var kinds, b := Kinds(host, ws, steps), |ws[m].batches| + 1;
            && b <= |ws[k].batches| && OrderOf(ws[k], b) == ids
            && (|RanIn(ws[k].ran, b)| == |ids| <==>
                  Distinct(ids) && AllWait(ws[m], ids) && forall j :: m < j < k ==> !Disturbs(kinds[j], ids))
  {
    var kinds, b := Kinds(host, ws, steps), |ws[m].batches| + 1;
    RunIsSafeWalk(host, ws, steps);
    BatchSpan(ws, kinds, m, k, ids);
    if !Distinct(ids) {
      CompletesExactlyWhen(ws[k], b);
    } else if AllWait(ws[m], ids) && forall j :: m < j < k ==> !Disturbs(kinds[j], ids) {
      HeldOnWalk(ws, kinds, m, k, ids);
      HeldIsLeft(ws[k], b, ids);
      CompletesExactlyWhen(ws[k], b);
    } else {
      var i := LostSomewhere(ws, kinds, m, k, ids, b);
      LostIsIncomplete(ws[k], b, i);
    }
  }

  // ---- what the history of calls does to one target ----

  // A target contract: what a call from `caller` makes of its state, or None when the call fails.
  type Target<!S> = (S, AccountId, Call) -> Option<S>

  // A failed call leaves the target as it was.
  function Attempt<S>(t: Target<S>, s: S, caller: AccountId, call: Call): S {
    match t(s, caller, call) case Some(s') => s' case None => s
  }

  // The state of the target at `account` after the calls `r`, of which it runs its own.
  function Evolve<S>(host: Host, t: Target<S>, account: AccountId, s: S, r: seq<Ran>): S {
    if |r| == 0 then s else
    var s' := Evolve(host, t, account, s, r[..|r| - 1]);
    var x := r[|r| - 1];
    if x.call.receiver != account then s'
    else Attempt(t, s', if x.origin.FromGate? then host.currentAccount else x.origin.account, x.call)
  }

  // The loop a batch stands for: each call in turn, made by the gate, skipped when it fails.
  function Loop<S>(host: Host, t: Target<S>, account: AccountId, s: S, calls: seq<Call>): S {
    if |calls| == 0 then s else
    var s' := Loop(host, t, account, s, calls[..|calls| - 1]);
    var call := calls[|calls| - 1];
    if call.receiver != account then s' else Attempt(t, s', host.currentAccount, call)
  }

  lemma {:induction false} EvolveConcat<S>(host: Host, t: Target<S>, account: AccountId, s: S, r: seq<Ran>,
                                           more: seq<Ran>)
    ensures Evolve(host, t, account, s, r + more) == Evolve(host, t, account, Evolve(host, t, account, s, r), more)
  {
    if |more| == 0 {
      assert r + more == r;
    } else {
      assert (r + more)[..|r + more| - 1] == r + more[..|more| - 1];
      EvolveConcat(host, t, account, s, r, more[..|more| - 1]);
    }
  }

  // A target that only batch `b` calls sees exactly the calls of that batch.
  lemma {:induction false} EvolveOwn<S>(host: Host, t: Target<S>, account: AccountId, s: S, r: seq<Ran>, b: nat)
    requires forall k :: 0 <= k < |r| && r[k].call.receiver == account ==>
               r[k].origin.FromGate? && r[k].origin.batch == b
    ensures Evolve(host, t, account, s, r) == Evolve(host, t, account, s, RanIn(r, b))
  {
    if |r| > 0 {
      var front, x := r[..|r| - 1], r[|r| - 1];
      EvolveOwn(host, t, account, s, front, b);
      if x.origin.FromGate? && x.origin.batch == b {
        assert RanIn(r, b)[..|RanIn(r, b)| - 1] == RanIn(front, b);
      }
    }
  }

  lemma {:induction false} EvolveIsLoop<S>(host: Host, t: Target<S>, account: AccountId, s: S, r: seq<Ran>,
                                           calls: seq<Call>)
    requires |r| == |calls| && forall k :: 0 <= k < |r| ==> r[k].call == calls[k] && r[k].origin.FromGate?
    ensures Evolve(host, t, account, s, r) == Loop(host, t, account, s, calls)
  {
    if |r| > 0 {
      EvolveIsLoop(host, t, account, s, r[..|r| - 1], calls[..|r| - 1]);
    }
  }

  lemma {:induction false} RanConcat(r: seq<Ran>, more: seq<Ran>, b: nat)
    ensures RanIn(r + more, b) == RanIn(r, b) + RanIn(more, b)
  {
    if |more| == 0 {
      assert r + more == r;
    } else {
      assert (r + more)[..|r + more| - 1] == r + more[..|more| - 1];
      RanConcat(r, more[..|more| - 1], b);
    }
  }

  function CallsOf(w: World, ids: seq<u64>): seq<Call>
    requires forall k :: 0 <= k < |ids| ==> ids[k] < |w.intents|
  {
    seq(|ids|, k requires 0 <= k < |ids| => w.intents[ids[k]].args.call)
  }

  // The calls made on the way from `w` to `w'`.
  function Since(w: World, w': World): seq<Ran> {
    if |w.ran| <= |w'.ran| then w'.ran[|w.ran|..] else []
  }

  // No call reached `account` on the way from `w` to `w'` except those of batch `b`.
  ghost predicate OnlyBatchCalls(w: World, w': World, account: AccountId, b: nat) {
    forall x :: x in Since(w, w') && x.call.receiver == account ==> x.origin.FromGate? && x.origin.batch == b
  }

  // What batch `b` has run since before it started, if all of it has run, is its calls in order.
  lemma RanIsPlan(w: World, w': World, b: nat)
    requires ChainInv(w) && ChainInv(w') && Grows(w, w')
    requires b == |w.batches| + 1 <= |w'.batches| && |RanIn(w'.ran, b)| == |OrderOf(w', b)|
    ensures BatchOk(w', b)
    ensures RanIn(Since(w, w'), b) == RanIn(w'.ran, b)
    ensures forall k :: 0 <= k < |OrderOf(w', b)| ==>
              RanIn(w'.ran, b)[k].call == CallsOf(w', OrderOf(w', b))[k] && RanIn(w'.ran, b)[k].origin.FromGate?
  {
    assert BatchOk(w', b);
    RanNone(w.ran, b);
    assert w'.ran == w.ran + Since(w, w');
    RanConcat(w.ran, Since(w, w'), b);
  }

  lemma TargetSeesLoop<S>(host: Host, t: Target<S>, account: AccountId, s: S, w: World, w': World, b: nat)
    requires ChainInv(w) && ChainInv(w') && Grows(w, w')
    requires b == |w.batches| + 1 <= |w'.batches| && |RanIn(w'.ran, b)| == |OrderOf(w', b)|
    requires OnlyBatchCalls(w, w', account, b)
    ensures BatchOk(w', b)
    ensures Evolve(host, t, account, s, w'.ran)
         == Loop(host, t, account, Evolve(host, t, account, s, w.ran), CallsOf(w', OrderOf(w', b)))
  {
    RanIsPlan(w, w', b);
    var more := Since(w, w');
    assert w'.ran == w.ran + more;
    EvolveConcat(host, t, account, s, w.ran, more);
    forall k | 0 <= k < |more| && more[k].call.receiver == account
      ensures more[k].origin.FromGate? && more[k].origin.batch == b
    {
      assert more[k] in more;
    }
    var before := Evolve(host, t, account, s, w.ran);
    EvolveOwn(host, t, account, before, more, b);
    EvolveIsLoop(host, t, account, before, RanIn(more, b), CallsOf(w', OrderOf(w', b)));
  }

  lemma CompletedLoop<S>(host: Host, w: World, w': World, b: nat, t: Target<S>, account: AccountId, s: S)
    requires Good(w) && Good(w') && Grows(w, w') && b == |w.batches| + 1 <= |w'.batches|
    requires !InFlight(w', b) && Distinct(OrderOf(w', b)) && OnlyBatchCalls(w, w', account, b)
    requires forall q :: 0 <= q < |OrderOf(w', b)| && OrderOf(w', b)[q] < |w'.intents| ==>
               LeftToChain(w'.intents[OrderOf(w', b)[q]].phase, b)
    ensures BatchOk(w', b)
    ensures |SentIn(w'.trace, b)| == |OrderOf(w', b)| && (b == |w'.batches| ==> w'.gate.tail == [])
    ensures Evolve(host, t, account, s, w'.ran)
         == Loop(host, t, account, Evolve(host, t, account, s, w.ran), CallsOf(w', OrderOf(w', b)))
  {
    CompletesExactlyWhen(w', b);
    TargetSeesLoop(host, t, account, s, w, w', b);
  }

  // A batch of distinct intents, in any run and under any interleaving: if nothing else took its intents and
  // nothing of it is left in flight, then every one of them was dispatched once, in order, and the target at
  // `account`, if only this batch called it, is where the plain loop over the batch leaves it.
  lemma BatchRefinesLoop<S>(host: Host, ws: seq<World>, steps: seq<Step>, m: nat, k: nat, ids: seq<u64>,
                            t: Target<S>, account: AccountId, s: S)
    requires GateRun(host, ws, steps) && SafeRun(host, ws, steps)
    requires m < k < |ws| && Kinds(host, ws, steps)[m] == Start(ids) && Distinct(ids)
    requires var b := |ws[m].batches| + 1;
             && !InFlight(ws[k], b)
             && (forall q :: 0 <= q < |ids| && ids[q] < |ws[k].intents| ==> LeftToChain(ws[k].intents[ids[q]].phase, b))
             && OnlyBatchCalls(ws[m], ws[k], account, b)
    ensures var b := |ws[m].batches| + 1;
            && b <= |ws[k].batches| && OrderOf(ws[k], b) == ids
            && (forall q :: 0 <= q < |ids| ==> ids[q] < |ws[k].intents|)
            && |SentIn(ws[k].trace, b)| == |ids|
            && (forall q :: 0 <= q < |ids| ==> SentIn(ws[k].trace, b)[q].id == ids[q])
            && (b == |ws[k].batches| ==> ws[k].gate.tail == [])
            && Evolve(host, t, account, s, ws[k].ran)
               == Loop(host, t, account, Evolve(host, t, account, s, ws[m].ran), CallsOf(ws[k], ids))
  {
    var kinds := Kinds(host, ws, steps);
    RunIsSafeWalk(host, ws, steps);
    BatchSpan(ws, kinds, m, k, ids);
    CompletedLoop(host, ws[m], ws[k], |ws[m].batches| + 1, t, account, s);
  }

  // Whenever a batch of distinct waiting intents is started and, until nothing of it is in flight, none of
  // them times out, is released by another call or fails in its callback, the batch completes, whatever else
  // runs in between.
  lemma UndisturbedBatchCompletes<S>(host: Host, ws: seq<World>, steps: seq<Step>, m: nat, k: nat, ids: seq<u64>,
                                     t: Target<S>, account: AccountId, s: S)
    requires GateRun(host, ws, steps) && SafeRun(host, ws, steps)
    requires m < k < |ws| && Kinds(host, ws, steps)[m] == Start(ids) && Distinct(ids)
    requires AllWait(ws[m], ids) && forall j :: m < j < k ==> !Disturbs(Kinds(host, ws, steps)[j], ids)
    requires !InFlight(ws[k], |ws[m].batches| + 1) && OnlyBatchCalls(ws[m], ws[k], account, |ws[m].batches| + 1)
    ensures var b := |ws[m].batches| + 1;
            && b <= |ws[k].batches| && OrderOf(ws[k], b) == ids
            && (forall q :: 0 <= q < |ids| ==> ids[q] < |ws[k].intents|)
            && |SentIn(ws[k].trace, b)| == |ids|
            && (forall q :: 0 <= q < |ids| ==> SentIn(ws[k].trace, b)[q].id == ids[q])
            && (b == |ws[k].batches| ==> ws[k].gate.tail == [])
            && Evolve(host, t, account, s, ws[k].ran)
               == Loop(host, t, account, Evolve(host, t, account, s, ws[m].ran), CallsOf(ws[k], ids))
  {
    RunIsSafeWalk(host, ws, steps);
    HeldOnWalk(ws, Kinds(host, ws, steps), m, k, ids);
    HeldIsLeft(ws[k], |ws[m].batches| + 1, ids);
    BatchRefinesLoop(host, ws, steps, m, k, ids, t, account, s);
  }
}
