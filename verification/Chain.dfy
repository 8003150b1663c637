/** The chained batch: one chain token at a time, dispatches in the approver's order.

    The ordering holds in safe runs; Discipline says which those are, and Batch that it holds in no others. */
module Chain {
  import opened Types
  import opened GateSpec
  import opened Runtime
  import opened StepEquations
  import opened Ledger
  import opened Discipline

  // ---- the part of a history that belongs to one batch ----

  function SentIn(t: seq<Sent>, b: nat): seq<Sent> {
    if |t| == 0 then [] else
    var front := SentIn(t[..|t| - 1], b);
    var last := t[|t| - 1];
    if last.batch == b then front + [last] else front
  }

  function RanIn(r: seq<Ran>, b: nat): seq<Ran> {
    if |r| == 0 then [] else
    var front := RanIn(r[..|r| - 1], b);
    var last := r[|r| - 1];
    if last.origin.FromGate? && last.origin.batch == b then front + [last] else front
  }

  lemma SentAppend(t: seq<Sent>, x: Sent, b: nat)
    ensures SentIn(t + [x], b) == if x.batch == b then SentIn(t, b) + [x] else SentIn(t, b)
  {
    assert (t + [x])[..|t|] == t;
  }

  lemma RanAppend(r: seq<Ran>, x: Ran, b: nat)
    ensures RanIn(r + [x], b) == if x.origin.FromGate? && x.origin.batch == b then RanIn(r, b) + [x] else RanIn(r, b)
  {
    assert (r + [x])[..|r|] == r;
  }

  lemma {:induction false} SentNone(t: seq<Sent>, b: nat)
    requires forall k :: 0 <= k < |t| ==> t[k].batch != b
    ensures SentIn(t, b) == []
  {
    if |t| > 0 {
      SentNone(t[..|t| - 1], b);
    }
  }

  lemma {:induction false} RanNone(r: seq<Ran>, b: nat)
    requires forall k :: 0 <= k < |r| ==> r[k].origin.FromGate? ==> r[k].origin.batch != b
    ensures RanIn(r, b) == []
  {
    if |r| > 0 {
      RanNone(r[..|r| - 1], b);
    }
  }

  // ---- tokens ----

  // A receipt of batch `b` that is due and stems from the intent's yield.
  predicate Flight(p: Phase, b: nat) {
    (p.Resumed? || p.Calling? || p.Continuing?) && BatchOf(p) == b
  }

  ghost predicate InFlight(w: World, b: nat) {
    exists i :: 0 <= i < |w.intents| && Flight(w.intents[i].phase, b)
  }

  // ---- the chain invariant ----

  function OrderOf(w: World, b: nat): seq<u64>
    requires 1 <= b <= |w.batches|
  {
    w.batches[b - 1]
  }

  // What batch `b` has dispatched, and what has been run of it, are prefixes of its order, and no more than one
  // dispatched call has yet to run.
  ghost predicate InOrder(order: seq<u64>, sent: seq<Sent>, ran: seq<Ran>, intents: seq<Intent>, b: nat) {
    && 0 < |order| < U32_LIMIT
    && (forall k :: 0 <= k < |order| ==> order[k] < |intents|)
    && |ran| <= |sent| <= |order| && |sent| <= |ran| + 1
    && (forall k :: 0 <= k < |sent| ==> sent[k].id == order[k] && sent[k].seqNo == Some(k))
    && (forall k :: 0 <= k < |ran| ==> ran[k] == Ran(intents[order[k]].args.call, FromGate(order[k], b)))
  }

  ghost predicate BatchOk(w: World, b: nat)
    requires 1 <= b <= |w.batches|
  {
    InOrder(OrderOf(w, b), SentIn(w.trace, b), RanIn(w.ran, b), w.intents, b)
  }

  lemma InOrderSent(order: seq<u64>, sent: seq<Sent>, ran: seq<Ran>, intents: seq<Intent>, b: nat, x: Sent)
    requires InOrder(order, sent, ran, intents, b)
    requires |ran| == |sent| < |order| && x.id == order[|sent|] && x.seqNo == Some(|sent|)
    ensures InOrder(order, sent + [x], ran, intents, b)
  {
  }

  lemma InOrderRan(order: seq<u64>, sent: seq<Sent>, ran: seq<Ran>, intents: seq<Intent>, b: nat, x: Ran)
    requires InOrder(order, sent, ran, intents, b)
    requires |ran| < |sent| && x == Ran(intents[order[|ran|]].args.call, FromGate(order[|ran|], b))
    ensures InOrder(order, sent, ran + [x], intents, b)
  {
  }

  lemma InOrderIntents(order: seq<u64>, sent: seq<Sent>, ran: seq<Ran>, intents: seq<Intent>, intents': seq<Intent>,
                       b: nat)
    requires InOrder(order, sent, ran, intents, b)
    requires |intents| <= |intents'| && forall i :: 0 <= i < |intents| ==> intents'[i].args == intents[i].args
    ensures InOrder(order, sent, ran, intents', b)
  {
  }

  // The tail is what the chain has not released yet; once it has released everything, another batch may have begun.
  ghost predicate TailFrom(w: World, b: nat, released: nat)
    requires 1 <= b <= |w.batches| && released <= |OrderOf(w, b)|
  {
    && (released < |OrderOf(w, b)| ==> b == |w.batches|)
    && (b == |w.batches| ==> w.gate.tail == OrderOf(w, b)[released..])
  }

  // Where a flight of batch `b` stands: `sent` intents dispatched, `ran` of their calls run.
  ghost predicate FlightOk(w: World, i: nat, b: nat, sent: nat, ran: nat)
    requires i < |w.intents| && 1 <= b <= |w.batches|
  {
    var order := OrderOf(w, b);
    sent <= |order| &&
    match w.intents[i].phase
    case Resumed(signal, _) =>
      && sent < |order| && order[sent] == i && ran == sent
      && signal == ResumeSignal(true, signal.sequenceNumber, First(order[sent + 1..]))
      && signal.sequenceNumber == Some(sent)
      && TailFrom(w, b, sent + 1)
    case Calling(_, chained, _) =>
      && 0 < sent && order[sent - 1] == i && ran == sent - 1
      && (chained.Some? <==> sent < |order|)
      && (chained.Some? ==> chained.value.nextId == order[sent] && chained.value.nextSeq == sent)
      && TailFrom(w, b, sent)
    case Continuing(next, _) =>
      && 0 < sent < |order| && order[sent - 1] == i && ran == sent
      && next.nextId == order[sent] && next.nextSeq == sent
      && TailFrom(w, b, sent)
    case _ => true
  }

  ghost predicate FlightsOk(w: World) {
    forall i, b :: 0 <= i < |w.intents| && 1 <= b <= |w.batches| && Flight(w.intents[i].phase, b) ==>
      FlightOk(w, i, b, |SentIn(w.trace, b)|, |RanIn(w.ran, b)|)
  }

  ghost predicate SinglesOk(w: World) {
    forall i :: 0 <= i < |w.intents| && Flight(w.intents[i].phase, 0) ==> !Token(w.intents[i].phase)
  }

  ghost predicate TailOk(w: World) {
    && (|w.gate.tail| > 0 ==>
        && |w.batches| > 0 && |w.gate.tail| < |OrderOf(w, |w.batches|)|
        && w.gate.tail == OrderOf(w, |w.batches|)[|OrderOf(w, |w.batches|)| - |w.gate.tail|..])
    && forall k :: 0 <= k < |w.ran| && w.ran[k].origin.FromGate? ==> w.ran[k].origin.batch <= |w.batches|
  }

  ghost predicate BatchesOk(w: World) {
    forall b :: 1 <= b <= |w.batches| ==> BatchOk(w, b)
  }

  ghost predicate ChainInv(w: World) {
    BatchesOk(w) && FlightsOk(w) && SinglesOk(w) && TailOk(w)
  }

  // At most one receipt of a batch is due at any time.
  lemma OneFlight(w: World, b: nat, i: nat, j: nat)
    requires ChainInv(w) && 1 <= b <= |w.batches|
    requires i < |w.intents| && Flight(w.intents[i].phase, b)
    requires j < |w.intents| && Flight(w.intents[j].phase, b)
    ensures i == j
  {
    var d, e := |SentIn(w.trace, b)|, |RanIn(w.ran, b)|;
    assert BatchOk(w, b);
    assert FlightOk(w, i, b, d, e) && FlightOk(w, j, b, d, e);
  }

  // At most one chain token is live, and it names the head of the tail with the right sequence number.
  lemma OneToken(w: World, i: nat, j: nat)
    requires Inv(w) && ChainInv(w)
    requires i < |w.intents| && Token(w.intents[i].phase)
    requires j < |w.intents| && Token(w.intents[j].phase)
    ensures i == j
    ensures BatchOf(w.intents[i].phase) == w.gate.activeBatchId
    ensures |w.gate.tail| > 0
  {
    var b := BatchOf(w.intents[i].phase);
    var b' := BatchOf(w.intents[j].phase);
    assert 1 <= b <= |w.batches| && 1 <= b' <= |w.batches|;
    assert BatchOk(w, b) && BatchOk(w, b');
    assert FlightOk(w, i, b, |SentIn(w.trace, b)|, |RanIn(w.ran, b)|);
    assert FlightOk(w, j, b', |SentIn(w.trace, b')|, |RanIn(w.ran, b')|);
    OneFlight(w, b, i, j);
  }

  // ---- the chain invariant is kept ----

  // Steps that create no flight of a batch, touch neither tail nor dispatches, and run no batch call.
  ghost predicate KeepsFlights(w: World, w': World) {
    && w'.batches == w.batches && w'.trace == w.trace && w'.gate.tail == w.gate.tail
    && (w'.ran == w.ran || (exists x: Ran :: x.origin.FromOutside? && w'.ran == w.ran + [x]))
    && |w.intents| <= |w'.intents|
    && (forall i :: 0 <= i < |w.intents| ==> w'.intents[i].args == w.intents[i].args)
    && (forall i :: 0 <= i < |w.intents| && w'.intents[i].phase != w.intents[i].phase ==>
          BatchOf(w'.intents[i].phase) == 0 || !Flight(w'.intents[i].phase, BatchOf(w'.intents[i].phase)))
    && (forall i :: 0 <= i < |w'.intents| && (i < |w.intents| ==> w'.intents[i].phase != w.intents[i].phase) ==>
          !Token(w'.intents[i].phase) && (i >= |w.intents| ==> w'.intents[i].phase == Waiting))
  }

  lemma SameRan(w: World, w': World, b: nat)
    requires KeepsFlights(w, w')
    ensures RanIn(w'.ran, b) == RanIn(w.ran, b)
  {
    if w'.ran != w.ran {
      var x: Ran :| x.origin.FromOutside? && w'.ran == w.ran + [x];
      RanAppend(w.ran, x, b);
    }
  }

  lemma KeptFlights(w: World, w': World)
    requires ChainInv(w) && KeepsFlights(w, w')
    ensures ChainInv(w')
  {
    forall b | 1 <= b <= |w'.batches| ensures BatchOk(w', b) {
      assert BatchOk(w, b);
      SameRan(w, w', b);
      InOrderIntents(OrderOf(w, b), SentIn(w.trace, b), RanIn(w.ran, b), w.intents, w'.intents, b);
    }
    forall i, b | 0 <= i < |w'.intents| && 1 <= b <= |w'.batches| && Flight(w'.intents[i].phase, b)
      ensures FlightOk(w', i, b, |SentIn(w'.trace, b)|, |RanIn(w'.ran, b)|)
    {
      assert FlightOk(w, i, b, |SentIn(w.trace, b)|, |RanIn(w.ran, b)|);
      SameRan(w, w', b);
    }
  }

  lemma ResetKeeps(w: World, w': World)
    requires Inv(w) && ChainInv(w) && ResetMove(w, w') && !TokenLive(w)
    ensures ChainInv(w')
  {
    forall b | 1 <= b <= |w'.batches| ensures BatchOk(w', b) {
      assert BatchOk(w, b);
      InOrderIntents(OrderOf(w, b), SentIn(w.trace, b), RanIn(w.ran, b), w.intents, w'.intents, b);
    }
    forall i, b | 0 <= i < |w'.intents| && 1 <= b <= |w'.batches| && Flight(w'.intents[i].phase, b)
      ensures FlightOk(w', i, b, |SentIn(w'.trace, b)|, |RanIn(w'.ran, b)|)
    {
      assert FlightOk(w, i, b, |SentIn(w.trace, b)|, |RanIn(w.ran, b)|);
      assert !Token(w.intents[i].phase);
    }
  }

  lemma StartKeeps(w: World, w': World, ids: seq<u64>)
    requires Inv(w) && ChainInv(w) && StartMove(w, w', ids)
    ensures ChainInv(w')
  {
    var n := |w'.batches|;
    assert forall k :: 0 <= k < |w.trace| ==> SentOk(w, w.trace[k]);
    SentNone(w.trace, n);
    RanNone(w.ran, n);
    forall b | 1 <= b <= n ensures BatchOk(w', b) {
      if b < n {
        assert BatchOk(w, b) && OrderOf(w', b) == OrderOf(w, b);
      }
    }
    forall i, b | 0 <= i < |w'.intents| && 1 <= b <= n && Flight(w'.intents[i].phase, b)
      ensures FlightOk(w', i, b, |SentIn(w'.trace, b)|, |RanIn(w'.ran, b)|)
    {
      if b < n {
        assert FlightOk(w, i, b, |SentIn(w.trace, b)|, |RanIn(w.ran, b)|);
        assert OrderOf(w', b) == OrderOf(w, b);
      }
    }
  }

  lemma SendSent(w: World, w': World, id: nat, b: nat)
    requires SendMove(w, w', id)
    ensures |w.trace| < |w'.trace|
    ensures SentIn(w'.trace, b)
         == if b == w.intents[id].phase.batch then SentIn(w.trace, b) + [w'.trace[|w.trace|]] else SentIn(w.trace, b)
  {
    SentAppend(w.trace, w'.trace[|w.trace|], b);
  }

  lemma SendIntents(w: World, w': World, id: nat, b: nat)
    requires SendMove(w, w', id) && 1 <= b <= |w.batches| && BatchOk(w, b)
    ensures InOrder(OrderOf(w, b), SentIn(w.trace, b), RanIn(w.ran, b), w'.intents, b)
  {
    InOrderIntents(OrderOf(w, b), SentIn(w.trace, b), RanIn(w.ran, b), w.intents, w'.intents, b);
  }

  lemma SendBatch(w: World, w': World, id: nat, b: nat)
    requires Inv(w) && ChainInv(w) && SendMove(w, w', id) && 1 <= b <= |w.batches|
    ensures BatchOk(w', b)
    ensures |w.trace| < |w'.trace|
    ensures SentIn(w'.trace, b)
         == if b == w.intents[id].phase.batch then SentIn(w.trace, b) + [w'.trace[|w.trace|]] else SentIn(w.trace, b)
  {
    var x := w'.trace[|w.trace|];
    var order, sent, ran := OrderOf(w, b), SentIn(w.trace, b), RanIn(w.ran, b);
    assert BatchOk(w, b);
    SendSent(w, w', id, b);
    SendIntents(w, w', id, b);
    if b == w.intents[id].phase.batch {
      assert FlightOk(w, id, b, |sent|, |ran|);
      InOrderSent(order, sent, ran, w'.intents, b, x);
    }
  }

  lemma SendFlight(w: World, w': World, id: nat, i: nat, b: nat)
    requires Inv(w) && ChainInv(w) && SendMove(w, w', id)
    requires i < |w.intents| && 1 <= b <= |w.batches| && Flight(w'.intents[i].phase, b)
    ensures FlightOk(w', i, b, |SentIn(w'.trace, b)|, |RanIn(w'.ran, b)|)
  {
    SendBatch(w, w', id, b);
    assert FlightOk(w, i, b, |SentIn(w.trace, b)|, |RanIn(w.ran, b)|);
    if b == w.intents[id].phase.batch {
      OneFlight(w, b, i, id);
    }
  }

  lemma SendKeeps(w: World, w': World, id: nat)
    requires Inv(w) && ChainInv(w) && SendMove(w, w', id)
    ensures ChainInv(w')
  {
    forall b | 1 <= b <= |w'.batches| ensures BatchOk(w', b) {
      SendBatch(w, w', id, b);
    }
    forall i, b | 0 <= i < |w'.intents| && 1 <= b <= |w'.batches| && Flight(w'.intents[i].phase, b)
      ensures FlightOk(w', i, b, |SentIn(w'.trace, b)|, |RanIn(w'.ran, b)|)
    {
      SendFlight(w, w', id, i, b);
    }
  }

  lemma ArriveRan(w: World, w': World, id: nat, b: nat)
    requires ArriveMove(w, w', id)
    ensures |w.ran| < |w'.ran|
    ensures w'.ran[|w.ran|] == Ran(w.intents[id].phase.call, FromGate(id, w.intents[id].phase.batch))
    ensures RanIn(w'.ran, b)
         == if b == w.intents[id].phase.batch then RanIn(w.ran, b) + [w'.ran[|w.ran|]] else RanIn(w.ran, b)
  {
    RanAppend(w.ran, w'.ran[|w.ran|], b);
  }

  lemma ArriveIntents(w: World, w': World, id: nat, b: nat)
    requires ArriveMove(w, w', id) && 1 <= b <= |w.batches| && BatchOk(w, b)
    ensures InOrder(OrderOf(w, b), SentIn(w.trace, b), RanIn(w.ran, b), w'.intents, b)
  {
    InOrderIntents(OrderOf(w, b), SentIn(w.trace, b), RanIn(w.ran, b), w.intents, w'.intents, b);
  }

  lemma ArriveOwn(w: World, w': World, id: nat, b: nat)
    requires Inv(w) && ChainInv(w) && ArriveMove(w, w', id) && 1 <= b == w.intents[id].phase.batch <= |w.batches|
    ensures InOrder(OrderOf(w, b), SentIn(w.trace, b),
                    RanIn(w.ran, b) + [Ran(w.intents[id].phase.call, FromGate(id, b))], w'.intents, b)
  {
    var order, sent, ran := OrderOf(w, b), SentIn(w.trace, b), RanIn(w.ran, b);
    assert BatchOk(w, b) && FlightOk(w, id, b, |sent|, |ran|);
    assert w'.intents[id].args == w.intents[id].args;
    ArriveIntents(w, w', id, b);
    InOrderRan(order, sent, ran, w'.intents, b, Ran(w.intents[id].phase.call, FromGate(id, b)));
  }

  lemma ArriveOwnOk(w: World, w': World, id: nat, b: nat)
    requires ArriveMove(w, w', id) && 1 <= b == w.intents[id].phase.batch <= |w.batches|
    requires InOrder(OrderOf(w, b), SentIn(w.trace, b),
                     RanIn(w.ran, b) + [Ran(w.intents[id].phase.call, FromGate(id, b))], w'.intents, b)
    ensures BatchOk(w', b)
  {
    ArriveRan(w, w', id, b);
  }

  lemma ArriveOtherOk(w: World, w': World, id: nat, b: nat)
    requires ArriveMove(w, w', id) && 1 <= b <= |w.batches| && b != w.intents[id].phase.batch && BatchOk(w, b)
    ensures BatchOk(w', b)
  {
    ArriveRan(w, w', id, b);
    ArriveIntents(w, w', id, b);
  }

  lemma ArriveBatch(w: World, w': World, id: nat, b: nat)
    requires Inv(w) && ChainInv(w) && ArriveMove(w, w', id) && 1 <= b <= |w.batches|
    ensures BatchOk(w', b)
    ensures |w.ran| < |w'.ran|
    ensures RanIn(w'.ran, b)
         == if b == w.intents[id].phase.batch then RanIn(w.ran, b) + [w'.ran[|w.ran|]] else RanIn(w.ran, b)
  {
    assert BatchOk(w, b);
    ArriveRan(w, w', id, b);
    if b == w.intents[id].phase.batch {
      ArriveOwn(w, w', id, b);
      ArriveOwnOk(w, w', id, b);
    } else {
      ArriveOtherOk(w, w', id, b);
    }
  }

  lemma ArriveFlight(w: World, w': World, id: nat, i: nat, b: nat)
    requires Inv(w) && ChainInv(w) && ArriveMove(w, w', id)
    requires i < |w.intents| && 1 <= b <= |w.batches| && Flight(w'.intents[i].phase, b)
    ensures FlightOk(w', i, b, |SentIn(w'.trace, b)|, |RanIn(w'.ran, b)|)
  {
    ArriveBatch(w, w', id, b);
    assert FlightOk(w, i, b, |SentIn(w.trace, b)|, |RanIn(w.ran, b)|);
    if b == w.intents[id].phase.batch {
      OneFlight(w, b, i, id);
    }
  }

  lemma ArriveKeeps(w: World, w': World, id: nat)
    requires Inv(w) && ChainInv(w) && ArriveMove(w, w', id)
    ensures ChainInv(w')
  {
    forall b | 1 <= b <= |w'.batches| ensures BatchOk(w', b) {
      ArriveBatch(w, w', id, b);
    }
    forall i, b | 0 <= i < |w'.intents| && 1 <= b <= |w'.batches| && Flight(w'.intents[i].phase, b)
      ensures FlightOk(w', i, b, |SentIn(w'.trace, b)|, |RanIn(w'.ran, b)|)
    {
      ArriveFlight(w, w', id, i, b);
    }
  }

  lemma LinkFlight(w: World, w': World, id: nat, i: nat, b: nat)
    requires Inv(w) && ChainInv(w) && LinkMove(w, w', id)
    requires i < |w.intents| && 1 <= b <= |w.batches| && Flight(w'.intents[i].phase, b)
    ensures FlightOk(w', i, b, |SentIn(w'.trace, b)|, |RanIn(w'.ran, b)|)
  {
    var p := w.intents[id].phase;
    assert BatchOk(w, b);
    assert 1 <= p.batch;
    assert FlightOk(w, id, p.batch, |SentIn(w.trace, p.batch)|, |RanIn(w.ran, p.batch)|);
    if i != p.next.nextId {
      assert FlightOk(w, i, b, |SentIn(w.trace, b)|, |RanIn(w.ran, b)|);
      if b == p.batch {
        OneFlight(w, b, i, id);
      }
    }
  }

  lemma LinkKeeps(w: World, w': World, id: nat)
    requires Inv(w) && ChainInv(w) && LinkMove(w, w', id)
    ensures ChainInv(w')
  {
    forall b | 1 <= b <= |w'.batches| ensures BatchOk(w', b) {
      assert BatchOk(w, b);
      InOrderIntents(OrderOf(w, b), SentIn(w.trace, b), RanIn(w.ran, b), w.intents, w'.intents, b);
    }
    forall i, b | 0 <= i < |w'.intents| && 1 <= b <= |w'.batches| && Flight(w'.intents[i].phase, b)
      ensures FlightOk(w', i, b, |SentIn(w'.trace, b)|, |RanIn(w'.ran, b)|)
    {
      LinkFlight(w, w', id, i, b);
    }
    var p := w.intents[id].phase;
    assert FlightOk(w, id, p.batch, |SentIn(w.trace, p.batch)|, |RanIn(w.ran, p.batch)|);
  }

  lemma ParkingKeepsFlights(w: World, w': World)
    requires Inv(w) && ParkingMove(w, w')
    ensures KeepsFlights(w, w')
  {
    assert w'.intents == w.intents + [w'.intents[|w.intents|]];
  }

  lemma SingleKeepsFlights(w: World, w': World, id: nat, approve: bool)
    requires Inv(w) && SingleMove(w, w', id, approve)
    ensures KeepsFlights(w, w')
  {
  }

  lemma OthersKeepFlights(w: World, w': World, kind: Kind)
    requires Inv(w) && Moves(w, w', kind)
    requires !kind.Reset? && !kind.Start? && !kind.Send? && !kind.Arrive? && !kind.Pull? && !kind.Link?
    ensures KeepsFlights(w, w')
  {
    if kind.Parking? {
      ParkingKeepsFlights(w, w');
    } else if kind.Single? {
      SingleKeepsFlights(w, w', kind.id, kind.approve);
    }
  }

  lemma ChainKept(w: World, w': World, kind: Kind)
    requires Inv(w) && ChainInv(w) && Moves(w, w', kind) && SafeStep(w, kind)
    ensures ChainInv(w')
  {
    if kind.Reset? {
      ResetKeeps(w, w');
    } else if kind.Start? {
      StartKeeps(w, w', kind.ids);
    } else if kind.Send? {
      SendKeeps(w, w', kind.id);
    } else if kind.Arrive? {
      ArriveKeeps(w, w', kind.id);
    } else if kind.Link? {
      LinkKeeps(w, w', kind.id);
    } else {
      OthersKeepFlights(w, w', kind);
      KeptFlights(w, w');
    }
  }

  lemma {:induction false} ChainHolds(ws: seq<World>, kinds: seq<Kind>, k: nat)
    requires IsWalk(ws, kinds) && FromGenesis(ws[0]) && SafeSteps(ws, kinds) && k < |ws|
    ensures ChainInv(ws[k])
  {
    if k > 0 {
      ChainHolds(ws, kinds, k - 1);
      ChainKept(ws[k - 1], ws[k], kinds[k - 1]);
    }
  }

  // ---- what a run shows ----

  // The intent a token will release next, and the sequence number it will give it.
  function NextOf(p: Phase): Option<Then> {
    match p
    case Resumed(signal, _) => ChainedFor(signal)
    case Calling(_, chained, _) => chained
    case Continuing(next, _) => Some(next)
    case _ => None
  }

  lemma TokenNamesTail(w: World, i: nat, j: nat)
    requires Inv(w) && ChainInv(w)
    requires i < |w.intents| && Token(w.intents[i].phase)
    requires j < |w.intents| && Token(w.intents[j].phase)
    ensures i == j
    ensures var b := BatchOf(w.intents[i].phase);
            && 1 <= b == w.gate.activeBatchId == |w.batches|
            && var order, left := OrderOf(w, b), w.gate.tail;
            && 0 < |left| < |order| && left == order[|order| - |left|..]
            && NextOf(w.intents[i].phase).Some?
            && NextOf(w.intents[i].phase).value.nextId == left[0]
            && NextOf(w.intents[i].phase).value.nextSeq == |order| - |left|
            && order[|order| - |left| - 1] == i
  {
    OneToken(w, i, j);
    var b := BatchOf(w.intents[i].phase);
    assert BatchOk(w, b);
    assert FlightOk(w, i, b, |SentIn(w.trace, b)|, |RanIn(w.ran, b)|);
  }

  // In every world of a safe run at most one chain token is live. It belongs to the active batch and names the
  // head of the tail; the tail is the suffix of the batch that has not been released, and the token's
  // sequence number is the position of its head.
  lemma SingleToken(host: Host, ws: seq<World>, steps: seq<Step>, k: nat, i: nat, j: nat)
    requires GateRun(host, ws, steps) && SafeRun(host, ws, steps) && k < |ws|
    requires i < |ws[k].intents| && Token(ws[k].intents[i].phase)
    requires j < |ws[k].intents| && Token(ws[k].intents[j].phase)
    ensures i == j
    ensures var w := ws[k];
            var b := BatchOf(w.intents[i].phase);
            && 1 <= b == w.gate.activeBatchId == |w.batches|
            && var order, left := OrderOf(w, b), w.gate.tail;
            && 0 < |left| < |order| && left == order[|order| - |left|..]
            && NextOf(w.intents[i].phase).Some?
            && NextOf(w.intents[i].phase).value.nextId == left[0]
            && NextOf(w.intents[i].phase).value.nextSeq == |order| - |left|
            && order[|order| - |left| - 1] == i
  {
    RunIsSafeWalk(host, ws, steps);
    ChainHolds(ws, Kinds(host, ws, steps), k);
    TokenNamesTail(ws[k], i, j);
  }

  // The last intent the chain has released: the one before the tail in the active batch.
  function LastReleased(w: World): nat
    requires TailOk(w) && |w.gate.tail| > 0
  {
    var order := OrderOf(w, |w.batches|);
    order[|order| - |w.gate.tail| - 1]
  }

  lemma LiveInWorld(w: World)
    requires Inv(w) && ChainInv(w)
    ensures |w.gate.tail| > 0 ==> LastReleased(w) < |w.intents|
    ensures TokenLive(w) <==> |w.gate.tail| > 0 && Token(w.intents[LastReleased(w)].phase)
  {
    if |w.gate.tail| > 0 {
      assert BatchOk(w, |w.batches|);
    }
    if TokenLive(w) {
      var i :| 0 <= i < |w.intents| && Token(w.intents[i].phase);
      TokenNamesTail(w, i, i);
    }
  }

  // Where to look for a live chain receipt. An empty tail means there is none; otherwise it can only stem from the
  // intent released last.
  lemma LiveExactly(host: Host, ws: seq<World>, steps: seq<Step>, k: nat)
    requires GateRun(host, ws, steps) && SafeRun(host, ws, steps) && k < |ws|
    ensures TailOk(ws[k])
    ensures |ws[k].gate.tail| > 0 ==> LastReleased(ws[k]) < |ws[k].intents|
    ensures TokenLive(ws[k]) <==> |ws[k].gate.tail| > 0 && Token(ws[k].intents[LastReleased(ws[k])].phase)
  {
    RunIsSafeWalk(host, ws, steps);
    ChainHolds(ws, Kinds(host, ws, steps), k);
    LiveInWorld(ws[k]);
  }

  // In every world of a safe run, what each batch has dispatched, and what its targets have run, is a prefix of
  // the approver's order, numbered from 0; the calls run are the ones the intents were parked with; and no
  // intent is dispatched before the call of the one before it has run.
  lemma DispatchInOrder(host: Host, ws: seq<World>, steps: seq<Step>, k: nat, b: nat)
    requires GateRun(host, ws, steps) && SafeRun(host, ws, steps) && k < |ws|
    requires 1 <= b <= |ws[k].batches|
    ensures var w := ws[k];
            var order, sent, ran := OrderOf(w, b), SentIn(w.trace, b), RanIn(w.ran, b);
            && |ran| <= |sent| <= |order| && |sent| <= |ran| + 1
            && (forall q :: 0 <= q < |sent| ==> sent[q].id == order[q] && sent[q].seqNo == Some(q))
            && (forall q :: 0 <= q < |ran| ==>
                  order[q] < |w.intents| && ran[q] == Ran(w.intents[order[q]].args.call, FromGate(order[q], b)))
  {
    RunIsSafeWalk(host, ws, steps);
    ChainHolds(ws, Kinds(host, ws, steps), k);
    assert BatchOk(ws[k], b);
  }

  lemma NoSequenceOverflow(w: World, id: nat)
    requires Inv(w) && ChainInv(w) && id < |w.intents|
    ensures var p := w.intents[id].phase; p.Resumed? && Token(p) ==> ChainedFor(p.signal).Some?
  {
    var p := w.intents[id].phase;
    if p.Resumed? && Token(p) {
      TokenNamesTail(w, id, id);
    }
  }

  // In a safe run the contract's two chain panics, and the overflow of a sequence number, never happen.
  lemma ChainPanicsUnreachable(host: Host, ws: seq<World>, steps: seq<Step>, k: nat)
    requires GateRun(host, ws, steps) && SafeRun(host, ws, steps) && k < |steps|
    ensures steps[k].event.Chain? ==>
              OutcomeOf(host, ws[k], steps[k]) !in {Panic(TailEmpty), Panic(TailMismatch)}
    ensures steps[k].event.Callback? && !steps[k].event.abort ==> OutcomeOf(host, ws[k], steps[k]).Commit?
  {
    RunIsSafeWalk(host, ws, steps);
    ChainHolds(ws, Kinds(host, ws, steps), k);
    var w, s := ws[k], steps[k];
    if s.event.Chain? {
      TokenNamesTail(w, s.event.id, s.event.id);
    } else if s.event.Callback? && !s.event.abort {
      CountersBounded(w, s.event.id);
      NoSequenceOverflow(w, s.event.id);
    }
  }
}
