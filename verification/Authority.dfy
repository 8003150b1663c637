/** Over runs: who can make the gate take each kind of step, in which worlds, and with what deposit. */
module Authority {
  import opened Types
  import opened GateSpec
  import opened Runtime
  import opened StepEquations
  import opened Ledger
  import opened Fees
  import opened EntryPoints

  // ---- the batch counter has room ----

  // Every batch has released an intent of its own.
  ghost predicate BatchesReleased(w: World) { |w.batches| <= Sum(w.intents, WasReleased) }

  lemma BatchesReleasedKept(w: World, w': World, kind: Kind)
    requires Inv(w) && Moves(w, w', kind) && BatchesReleased(w)
    ensures BatchesReleased(w')
  {
    if kind.Single? || kind.Start? {
      OwedRelease(w, w', kind);
    } else if kind.Parking? {
      OwedParking(w, w');
    } else if kind.Pull? {
      OwedPull(w, w', kind.id);
    } else if kind.Link? {
      OwedLink(w, w', kind.id);
    } else if !kind.Quiet? && !kind.Reset? && !kind.Foreign? {
      OwedReceipt(w, w', kind);
    }
  }

  lemma {:induction false} BatchesReleasedAlways(host: Host, ws: seq<World>, steps: seq<Step>, k: nat)
    requires GateRun(host, ws, steps) && k < |ws|
    ensures BatchesReleased(ws[k])
  {
    if k > 0 {
      BatchesReleasedAlways(host, ws, steps, k - 1);
      Always(host, ws, steps, k - 1);
      BatchesReleasedKept(ws[k - 1], ws[k], KindOf(host, ws[k - 1], steps[k - 1]));
    }
  }

  // While an intent waits, not all have been released, so the batch counter can count one more.
  lemma RoomForBatch(w: World, i: nat)
    requires Inv(w) && BatchesReleased(w) && i < |w.intents| && w.intents[i].phase == Waiting
    ensures w.gate.activeBatchId < MAX_U64
  {
    var released := Intent(w.intents[i].args, 0, Finished(0));
    SumUpdate(w.intents, i, released, WasReleased);
    SumBelow(w.intents[i := released], WasReleased, 1);
  }

  // ---- releases ----

  // The deposit covers the fee of the least-cap tier for `n`, and the books can hold the fee.
  ghost predicate Affords(g: GateState, attached: u128, n: u32) {
    exists t :: LeastCover(g.tiers, n, t) && t.fee <= attached && g.collected + t.fee <= MAX_U128
  }

  lemma AffordsExactly(g: GateState, attached: u128, n: u32, k: nat)
    requires ValidTiers(g.tiers) && forall i :: Prices(g.tiers, n, i) <==> i == k < |g.tiers|
    ensures Affords(g, attached, n) <==> Pays(g, attached, n, k)
    ensures forall t :: LeastCover(g.tiers, n, t) <==> k < |g.tiers| && t == g.tiers[k]
  {
    CoverExactly(g.tiers, n);
    if k < |g.tiers| {
      assert Prices(g.tiers, n, k);
      forall t ensures LeastCover(g.tiers, n, t) <==> t == g.tiers[k] {
        OnlyLeastCover(g.tiers, n, k, t);
      }
    } else {
      var i := CoverIndex(g.tiers, n);
      assert !Prices(g.tiers, n, i);
    }
  }

  ghost predicate Waits(w: World, id: nat) { id < |w.intents| && w.intents[id].phase == Waiting }

  lemma SingleInWorld(host: Host, w: World, s: Step, id: u64, approve: bool)
    requires Inv(w) && FeesOk(w) && Enabled(w, s) && s.event.Tx? && s.event.call == ResumeIntent(id, approve)
    ensures Invoke(host, w.gate, CtxOf(host, w, s), s.event.call).Commit?
       <==> s.event.caller == w.gate.approver && Affords(w.gate, s.event.attached, 1) && Waits(w, id)
  {
    var n := ResumeExactly(host, w.gate, CtxOf(host, w, s), id, approve);
    AffordsExactly(w.gate, s.event.attached, 1, n);
  }

  // A `resume_intent` takes effect exactly when the approver in force sends it, with the fee of one, for an intent
  // that waits.
  lemma SinglesExactly(host: Host, ws: seq<World>, steps: seq<Step>, k: nat, caller: AccountId, attached: u128,
                       id: u64, approve: bool)
    requires GateRun(host, ws, steps) && k < |steps|
    requires steps[k].event == Tx(caller, attached, ResumeIntent(id, approve))
    ensures KindOf(host, ws[k], steps[k]) == Single(id, approve)
       <==> caller == ws[k].gate.approver && Affords(ws[k].gate, attached, 1) && Waits(ws[k], id)
  {
    Always(host, ws, steps, k);
    FeesAlways(host, ws, steps, k);
    SingleInWorld(host, ws[k], steps[k], id, approve);
  }

  // Every id of the batch is pending, the first one waiting for its release.
  ghost predicate Ready(w: World, ids: seq<u64>) {
    && 0 < |ids| && Waits(w, ids[0])
    && forall q :: 0 <= q < |ids| ==> ids[q] < |w.intents| && InPending(w.intents[ids[q]].phase)
  }

  lemma StartInWorld(host: Host, w: World, s: Step, ids: IdList)
    requires Inv(w) && FeesOk(w) && BatchesReleased(w)
    requires Enabled(w, s) && s.event.Tx? && s.event.call == ResumeBatchChained(ids)
    ensures Invoke(host, w.gate, CtxOf(host, w, s), s.event.call).Commit?
       <==> && s.event.caller == w.gate.approver && Affords(w.gate, s.event.attached, |ids|)
            && w.gate.tail == [] && Ready(w, ids)
  {
    var n := BatchExactly(host, w.gate, CtxOf(host, w, s), ids);
    AffordsExactly(w.gate, s.event.attached, |ids|, n);
    if 0 < |ids| && Waits(w, ids[0]) {
      RoomForBatch(w, ids[0]);
    }
  }

  // A batch starts exactly when the approver in force sends it, with the fee for its size, while no tail is left
  // over and its intents are ready.
  lemma StartsExactly(host: Host, ws: seq<World>, steps: seq<Step>, k: nat, caller: AccountId, attached: u128,
                      ids: IdList)
    requires GateRun(host, ws, steps) && k < |steps| && steps[k].event == Tx(caller, attached, ResumeBatchChained(ids))
    ensures KindOf(host, ws[k], steps[k]) == Start(ids)
       <==> && caller == ws[k].gate.approver && Affords(ws[k].gate, attached, |ids|)
            && ws[k].gate.tail == [] && Ready(ws[k], ids)
  {
    Always(host, ws, steps, k);
    FeesAlways(host, ws, steps, k);
    BatchesReleasedAlways(host, ws, steps, k);
    StartInWorld(host, ws[k], steps[k], ids);
  }

  // Nothing but those two transactions releases intents on the approver's word.
  lemma ReleasedByApprover(host: Host, ws: seq<World>, steps: seq<Step>, k: nat)
    requires GateRun(host, ws, steps) && k < |steps|
    ensures var kind := KindOf(host, ws[k], steps[k]);
            kind.Single? || kind.Start? ==>
              && steps[k].event.Tx? && steps[k].event.caller == ws[k].gate.approver
              && Affords(ws[k].gate, steps[k].event.attached, if kind.Single? then 1 else PaidFor(kind))
  {
    var kind := KindOf(host, ws[k], steps[k]);
    if kind.Single? {
      var Tx(caller, attached, m) := steps[k].event;
      SinglesExactly(host, ws, steps, k, caller, attached, m.intentId, m.approve);
    } else if kind.Start? {
      var Tx(caller, attached, m) := steps[k].event;
      StartsExactly(host, ws, steps, k, caller, attached, m.intentIds);
    }
  }

  // ---- deposits ----

  // What a release had attached.
  function Deposit(host: Host, w: World, s: Step): nat
    requires Enabled(w, s)
  {
    if KindOf(host, w, s).Single? || KindOf(host, w, s).Start? then s.event.attached else 0
  }

  function Deposits(host: Host, ws: seq<World>, steps: seq<Step>, k: nat): nat
    requires k <= |steps| <= |ws| && forall m :: 0 <= m < k ==> Enabled(ws[m], steps[m])
  {
    if k == 0 then 0 else Deposits(host, ws, steps, k - 1) + Deposit(host, ws[k - 1], steps[k - 1])
  }

  lemma ChargeIsDeposited(host: Host, ws: seq<World>, steps: seq<Step>, k: nat)
    requires GateRun(host, ws, steps) && k < |steps|
    ensures Charge(ws[k], KindOf(host, ws[k], steps[k])) <= Deposit(host, ws[k], steps[k])
  {
    var kind := KindOf(host, ws[k], steps[k]);
    ReleasedByApprover(host, ws, steps, k);
    FeesAlways(host, ws, steps, k);
    if kind.Single? {
      CoverExactly(ws[k].gate.tiers, 1);
    } else if kind.Start? {
      CoverExactly(ws[k].gate.tiers, |kind.ids|);
    }
  }

  // Every fee on the books was attached to the release it was charged for: the total collected, and so what the owner
  // can take out, is never more than the deposits of the releases.
  lemma {:induction false} CollectedWasDeposited(host: Host, ws: seq<World>, steps: seq<Step>, k: nat)
    requires GateRun(host, ws, steps) && k < |ws|
    ensures ws[k].gate.withdrawn <= ws[k].gate.collected <= Deposits(host, ws, steps, k)
  {
    FeesAlways(host, ws, steps, k);
    if k > 0 {
      CollectedWasDeposited(host, ws, steps, k - 1);
      ChargeIsDeposited(host, ws, steps, k - 1);
      StepFees(host, ws[k - 1], steps[k - 1]);
    }
  }

  // A release is refused for its deposit exactly when the least-cap tier for its size asks for more.
  lemma RefusedForDeposit(host: Host, ws: seq<World>, steps: seq<Step>, k: nat, caller: AccountId, attached: u128,
                          ids: IdList)
    requires GateRun(host, ws, steps) && k < |steps| && steps[k].event == Tx(caller, attached, ResumeBatchChained(ids))
    ensures OutcomeOf(host, ws[k], steps[k]) == Panic(InsufficientFee)
       <==> && caller == ws[k].gate.approver && ids != [] && ws[k].gate.tail == []
            && exists t :: LeastCover(ws[k].gate.tiers, |ids|, t) && attached < t.fee
  {
    FeesAlways(host, ws, steps, k);
    var n := BatchExactly(host, ws[k].gate, CtxOf(host, ws[k], steps[k]), ids);
    AffordsExactly(ws[k].gate, attached, |ids|, n);
  }

  // ---- submissions ----

  lemma SubmissionRuns(host: Host, w: World, s: Step, o: Outcome)
    requires Enabled(w, s) && s.event.Tx? && s.event.call.SubmitIntent?
    requires o == Invoke(host, w.gate, CtxOf(host, w, s), s.event.call)
    ensures KindOf(host, w, s) == Parking <==> o.Commit?
    ensures o.Commit? && o.effect.NewYield? ==>
              Next(host, w, s)
              == w.(gate := o.g, block := s.block, intents := w.intents + [Intent(o.effect.args, s.block, Waiting)])
  {
  }

  // A submission is accepted exactly when a relayer in force sends the bytes of a delegate that is signed, in time,
  // fresh and of one action; the two counters have room as long as fewer than 2^64 - 1 intents were accepted before.
  lemma ParksExactly(host: Host, ws: seq<World>, steps: seq<Step>, k: nat, caller: AccountId, attached: u128,
                     input: Bytes)
    requires GateRun(host, ws, steps) && k < |steps| && steps[k].event == Tx(caller, attached, SubmitIntent(input))
    ensures KindOf(host, ws[k], steps[k]) == Parking
       <==> exists x :: Submittable(host, ws[k].gate, CtxOf(host, ws[k], steps[k]), input, x)
    ensures forall x :: Submittable(host, ws[k].gate, CtxOf(host, ws[k], steps[k]), input, x) ==>
              var n, d := |ws[k].intents|, x.delegateAction;
              && n < MAX_U64
              && ws[k + 1].gate.pending
                 == ws[k].gate.pending[n := StoredEntry(d, CtxOf(host, ws[k], steps[k]))]
              && ws[k + 1].intents == ws[k].intents + [Intent(CallbackArgs(n, CallOf(d)), steps[k].block, Waiting)]
  {
    Always(host, ws, steps, k);
    var o := Invoke(host, ws[k].gate, CtxOf(host, ws[k], steps[k]), SubmitIntent(input));
    SubmitExactly(host, ws[k].gate, CtxOf(host, ws[k], steps[k]), input);
    SubmissionRuns(host, ws[k], steps[k], o);
  }

  // ---- the owner ----

  // The tail is cleared exactly by the owner's reset.
  lemma ResetsExactly(host: Host, ws: seq<World>, steps: seq<Step>, k: nat)
    requires GateRun(host, ws, steps) && k < |steps|
    ensures KindOf(host, ws[k], steps[k]) == Reset
       <==> && steps[k].event.Tx? && steps[k].event.call.ResetBatchTail?
            && steps[k].event.caller == ws[k].gate.owner
  {
  }

  // ---- the gate's own receipts ----

  // Which receipt an intent has due, from the current block on: a waiting one may time out, a timed-out or resumed one
  // has its callback due, which may fail only on an approval, and the others have a call or a continue_chain due, or
  // nothing.
  lemma ReceiptsDue(w: World, i: nat, block: u64, cut: bool)
    requires i < |w.intents| && w.block <= block
    ensures var p := w.intents[i].phase;
            && (Enabled(w, Step(block, Timeout(i))) <==> p.Waiting?)
            && (Enabled(w, Step(block, Callback(i, false))) <==> p.TimedOut? || p.Resumed?)
            && (Enabled(w, Step(block, Callback(i, true))) <==> p.Resumed? && p.signal.approve)
            && (Enabled(w, Step(block, Target(i, cut))) <==> p.Calling?)
            && (Enabled(w, Step(block, Event.Chain(i))) <==> p.Continuing?)
  {
  }

  // In any run, a callback that is not cut short resolves its intent as its signal says: only a sequence number at its
  // limit stands in the way of an approved one.
  lemma CallbacksExactly(host: Host, ws: seq<World>, steps: seq<Step>, k: nat, id: nat)
    requires GateRun(host, ws, steps) && k < |steps| && steps[k].event == Callback(id, false)
    ensures id < |ws[k].intents|
    ensures var p, kind := ws[k].intents[id].phase, KindOf(host, ws[k], steps[k]);
            && (kind == Refuse(id) <==> p.TimedOut? || (p.Resumed? && !p.signal.approve))
            && (kind == Send(id) <==>
                  p.Resumed? && p.signal.approve && (p.signal.nextIntentId.Some? ==> Following(p.signal) < U32_LIMIT))
            && (kind == Abort(id) <==>
                  p.Resumed? && p.signal.approve && p.signal.nextIntentId.Some? && Following(p.signal) == U32_LIMIT)
  {
    var w := ws[k];
    Always(host, ws, steps, k);
    CountersBounded(w, id);
    CallbackExactly(host, w.gate, CtxOf(host, w, steps[k]), w.intents[id].args, SignalOf(w.intents[id].phase));
  }

  // A continue_chain receipt releases the intent it names exactly when that is the head of the tail and still waits.
  lemma LinksExactly(host: Host, ws: seq<World>, steps: seq<Step>, k: nat, id: nat)
    requires GateRun(host, ws, steps) && k < |steps| && steps[k].event == Event.Chain(id)
    ensures id < |ws[k].intents| && ws[k].intents[id].phase.Continuing?
    ensures var w, next := ws[k], ws[k].intents[id].phase.next;
            && (KindOf(host, w, steps[k]) == Link(id) <==>
                  w.gate.tail != [] && w.gate.tail[0] == next.nextId && Waits(w, next.nextId))
            && (KindOf(host, w, steps[k]) == Link(id) || KindOf(host, w, steps[k]) == Break(id))
  {
    Always(host, ws, steps, k);
    ContinueExactly(host, ws[k].gate, CtxOf(host, ws[k], steps[k]), ws[k].intents[id].phase.next);
  }

  // A dispatched call makes the gate release an intent exactly when it is a call to its own continue_chain that is not
  // cut short and names the waiting head of the tail; any other call changes nothing in the gate.
  lemma CallsExactly(host: Host, ws: seq<World>, steps: seq<Step>, k: nat, id: nat, cut: bool)
    requires GateRun(host, ws, steps) && k < |steps| && steps[k].event == Target(id, cut)
    ensures id < |ws[k].intents| && ws[k].intents[id].phase.Calling?
    ensures var w, next := ws[k], SelfChain(host, ws[k].intents[id].args.call);
            && (KindOf(host, w, steps[k]) == Pull(id) <==>
                  && !cut && next.Some? && w.gate.tail != [] && w.gate.tail[0] == next.value.nextId
                  && Waits(w, next.value.nextId))
            && (KindOf(host, w, steps[k]) == Pull(id) || KindOf(host, w, steps[k]) == Arrive(id))
    ensures KindOf(host, ws[k], steps[k]) == Arrive(id) ==> ws[k + 1].gate == ws[k].gate
  {
    var w, next := ws[k], SelfChain(host, ws[k].intents[id].args.call);
    Always(host, ws, steps, k);
    if next.Some? {
      ContinueExactly(host, w.gate, CtxOf(host, w, steps[k]), next.value);
    }
  }
}
