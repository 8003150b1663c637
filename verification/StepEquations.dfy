/** What each kind of step changes, as an equation between the worlds before and after it. The
    invariants that make the equations hold are `Inv`; that every step keeps them is in Ledger. */
module StepEquations {
  import opened Types
  import opened Nep366
  import opened Nonces
  import opened GateSpec
  import opened Runtime

  // ---- counting intents by phase ----

  function Sum(s: seq<Intent>, f: Phase -> nat): nat {
    if |s| == 0 then 0 else Sum(s[..|s| - 1], f) + f(s[|s| - 1].phase)
  }

  lemma SumAppend(s: seq<Intent>, x: Intent, f: Phase -> nat)
    ensures Sum(s + [x], f) == Sum(s, f) + f(x.phase)
  {
    assert (s + [x])[..|s|] == s;
  }

  lemma {:induction false} SumUpdate(s: seq<Intent>, i: nat, x: Intent, f: Phase -> nat)
    requires i < |s|
    ensures Sum(s[i := x], f) + f(s[i].phase) == Sum(s, f) + f(x.phase)
  {
    var n := |s| - 1;
    if i == n {
      assert s[i := x][..n] == s[..n];
    } else {
      SumUpdate(s[..n], i, x, f);
      assert s[i := x][..n] == s[..n][i := x];
    }
  }

  lemma {:induction false} SumBelow(s: seq<Intent>, f: Phase -> nat, bound: nat)
    requires forall p :: f(p) <= bound
    ensures Sum(s, f) <= bound * |s|
  {
    if |s| > 0 {
      SumBelow(s[..|s| - 1], f, bound);
    }
  }

  function WasSent(p: Phase): nat { if p.Calling? || p.Continuing? || p.Finished? then 1 else 0 }

  function WasRejected(p: Phase): nat { if p.Rejected? then 1 else 0 }

  // Neither resumed nor resolved, as far as the gate's storage knows.
  predicate InPending(p: Phase) { p.Waiting? || p.TimedOut? }

  // ---- the bookkeeping invariant ----

  ghost predicate IdsOk(w: World) {
    && w.gate.nextIntentId == w.gate.submitted == |w.intents|
    && |w.gate.usedNonces| == |w.intents|
    && |w.batches| == w.gate.activeBatchId
    && forall i :: 0 <= i < |w.intents| ==>
         w.intents[i].args.intentId == i && BatchOf(w.intents[i].phase) <= |w.batches|
  }

  ghost predicate PendingOk(w: World) {
    && (forall id :: id in w.gate.pending ==>
         id < |w.intents| && w.gate.pending[id].yieldId == id && w.gate.pending[id].call == w.intents[id].args.call)
    && (forall i :: 0 <= i < |w.intents| ==> (i in w.gate.pending <==> InPending(w.intents[i].phase)))
  }

  ghost predicate CountersOk(w: World) {
    && w.gate.dispatched == |w.trace| == Sum(w.intents, WasSent)
    && w.gate.rejected == Sum(w.intents, WasRejected)
  }

  ghost predicate SentOk(w: World, t: Sent) {
    && t.id < |w.intents|
    && WasSent(w.intents[t.id].phase) == 1
    && t.batch == BatchOf(w.intents[t.id].phase)
    && t.call == w.intents[t.id].args.call
  }

  ghost predicate InTrace(w: World, i: nat) {
    exists k :: 0 <= k < |w.trace| && w.trace[k].id == i
  }

  ghost predicate TraceOk(w: World) {
    && (forall k :: 0 <= k < |w.trace| ==> SentOk(w, w.trace[k]))
    && (forall j, k :: 0 <= j < k < |w.trace| ==> w.trace[j].id != w.trace[k].id)
    && (forall i :: 0 <= i < |w.intents| && WasSent(w.intents[i].phase) == 1 ==> InTrace(w, i))
  }

  ghost predicate CallsOk(w: World) {
    forall i :: 0 <= i < |w.intents| && w.intents[i].phase.Calling? ==>
      w.intents[i].phase.call == w.intents[i].args.call
  }

  ghost predicate Inv(w: World) {
    IdsOk(w) && PendingOk(w) && CountersOk(w) && TraceOk(w) && CallsOk(w)
  }

  // ---- the equations ----

  ghost predicate SameHistory(w: World, w': World) {
    w'.batches == w.batches && w'.trace == w.trace && w'.ran == w.ran
  }

  // Storage that only intents and batches change, with `pending` as given.
  ghost predicate SameBooks(w: World, w': World, pending: map<u64, PendingIntent>) {
    && w'.gate.pending == pending
    && w'.gate.usedNonces == w.gate.usedNonces
    && w'.gate.nextIntentId == w.gate.nextIntentId
    && w'.gate.submitted == w.gate.submitted
  }

  ghost predicate SameCounters(w: World, w': World) {
    w'.gate.dispatched == w.gate.dispatched && w'.gate.rejected == w.gate.rejected
  }

  ghost predicate SameChain(w: World, w': World) {
    w'.gate.tail == w.gate.tail && w'.gate.activeBatchId == w.gate.activeBatchId
  }

  ghost predicate QuietMove(w: World, w': World) {
    SameBooks(w, w', w.gate.pending) && SameCounters(w, w') && SameChain(w, w') && SameHistory(w, w')
    && w'.intents == w.intents
  }

  ghost predicate ResetMove(w: World, w': World) {
    SameBooks(w, w', w.gate.pending) && SameCounters(w, w') && SameHistory(w, w') && w'.intents == w.intents
    && w'.gate.tail == [] && w'.gate.activeBatchId == w.gate.activeBatchId
  }

  ghost predicate ParkingMove(w: World, w': World) {
    && SameCounters(w, w') && SameChain(w, w') && SameHistory(w, w')
    && |w'.intents| == |w.intents| + 1 && w'.intents[..|w.intents|] == w.intents
    && var it := w'.intents[|w.intents|];
    && it == Intent(CallbackArgs(w.gate.nextIntentId, it.args.call), w'.block, Waiting)
    && w'.gate.nextIntentId == w.gate.nextIntentId + 1 && w'.gate.submitted == w.gate.submitted + 1
    && (exists key :: key !in w.gate.usedNonces && w'.gate.usedNonces.Keys == w.gate.usedNonces.Keys + {key})
    && (exists p: PendingIntent :: p.yieldId == |w.intents| && p.call == it.args.call
                    && w'.gate.pending == w.gate.pending[w.gate.nextIntentId := p])
  }

  ghost predicate SingleMove(w: World, w': World, id: nat, approve: bool) {
    && SameCounters(w, w') && SameChain(w, w') && SameHistory(w, w')
    && id < |w.intents| && w.intents[id].phase == Waiting
    && w'.intents == Put(w, id, Resumed(ResumeSignal(approve, None, None), 0), w'.block)
    && SameBooks(w, w', w.gate.pending - {id})
  }

  ghost predicate StartMove(w: World, w': World, ids: seq<u64>) {
    && SameCounters(w, w')
    && 0 < |ids| < U32_LIMIT
    && (forall k :: 0 <= k < |ids| ==> ids[k] < |w.intents| && InPending(w.intents[ids[k]].phase))
    && w.intents[ids[0]].phase == Waiting
    && w.gate.tail == [] && w'.gate.tail == ids[1..] && w'.gate.activeBatchId == w.gate.activeBatchId + 1
    && w'.batches == w.batches + [ids] && w'.trace == w.trace && w'.ran == w.ran
    && w'.intents == Put(w, ids[0], Resumed(ResumeSignal(true, Some(0), First(ids[1..])), |w'.batches|), w'.block)
    && SameBooks(w, w', w.gate.pending - {ids[0]})
  }

  ghost predicate ExpireMove(w: World, w': World, id: nat) {
    && id < |w.intents| && w.intents[id].phase == Waiting
    && w' == w.(block := w'.block, intents := Put(w, id, TimedOut, w'.block))
  }

  ghost predicate RefuseMove(w: World, w': World, id: nat) {
    && SameChain(w, w') && SameHistory(w, w')
    && id < |w.intents|
    && var p := w.intents[id].phase;
    && (p.TimedOut? || (p.Resumed? && !p.signal.approve))
    && w'.intents == Put(w, id, Rejected(p.TimedOut?), w'.block)
    && SameBooks(w, w', w.gate.pending - {id})
    && w'.gate.dispatched == w.gate.dispatched && w'.gate.rejected == w.gate.rejected + 1
  }

  ghost predicate AbortMove(w: World, w': World, id: nat) {
    && id < |w.intents| && w.intents[id].phase.Resumed? && w.intents[id].phase.signal.approve
    && w' == w.(block := w'.block, intents := Put(w, id, Aborted(w.intents[id].phase.batch), w'.block))
  }

  // The callback chained onto a dispatch made for `signal`.
  function ChainedFor(signal: ResumeSignal): Option<Then> {
    match signal.nextIntentId
    case None => None
    case Some(next) =>
      var seqNo := if signal.sequenceNumber.Some? then signal.sequenceNumber.value + 1 else 1;
      if seqNo < U32_LIMIT then Some(Then(next, seqNo)) else None
  }

  ghost predicate SendMove(w: World, w': World, id: nat) {
    && SameChain(w, w') && w'.batches == w.batches && w'.ran == w.ran
    && id < |w.intents| && w.intents[id].phase.Resumed?
    && var p := w.intents[id].phase;
    && p.signal.approve
    && (p.signal.nextIntentId.Some? ==> ChainedFor(p.signal).Some?)
    && var call := w.intents[id].args.call;
    && w'.intents == Put(w, id, Calling(call, ChainedFor(p.signal), p.batch), w'.block)
    && w'.trace == w.trace + [Sent(id, call, p.batch, p.signal.sequenceNumber, w'.block)]
    && SameBooks(w, w', w.gate.pending)
    && w'.gate.dispatched == w.gate.dispatched + 1 && w'.gate.rejected == w.gate.rejected
  }

  function AfterCall(p: Phase): Phase
    requires p.Calling?
  {
    match p.chained case Some(next) => Continuing(next, p.batch) case None => Finished(p.batch)
  }

  ghost predicate ArriveMove(w: World, w': World, id: nat) {
    && id < |w.intents| && w.intents[id].phase.Calling?
    && var p := w.intents[id].phase;
    && w' == w.(block := w'.block, intents := Put(w, id, AfterCall(p), w'.block),
                ran := w.ran + [Ran(p.call, FromGate(id, p.batch))])
  }

  // A self-addressed call has the gate release the head of the tail, under any sequence number.
  ghost predicate PullMove(w: World, w': World, id: nat) {
    && SameCounters(w, w') && w'.batches == w.batches && w'.trace == w.trace
    && id < |w.intents| && w.intents[id].phase.Calling?
    && var p := w.intents[id].phase;
    && w'.ran == w.ran + [Ran(p.call, FromGate(id, p.batch))]
    && |w.gate.tail| > 0
    && var y := w.gate.tail[0];
    && y < |w.intents| && w.intents[y].phase == Waiting
    && w'.gate.tail == w.gate.tail[1..] && w'.gate.activeBatchId == w.gate.activeBatchId
    && y < |w'.intents| && w'.intents[y].phase.Resumed?
    && var signal := w'.intents[y].phase.signal;
    && signal == ResumeSignal(true, signal.sequenceNumber, First(w.gate.tail[1..])) && signal.sequenceNumber.Some?
    && w'.intents == w.intents[id := Intent(w.intents[id].args, w'.block, AfterCall(p))]
                        [y := Intent(w.intents[y].args, w'.block, Resumed(signal, |w.batches|))]
    && SameBooks(w, w', w.gate.pending - {y})
  }

  // The tail's head is the expected intent, and that intent is still waiting.
  ghost predicate CanLink(w: World, next: Then) {
    && |w.gate.tail| > 0 && w.gate.tail[0] == next.nextId
    && next.nextId < |w.intents| && w.intents[next.nextId].phase == Waiting
  }

  ghost predicate LinkMove(w: World, w': World, id: nat) {
    && SameCounters(w, w') && SameHistory(w, w')
    && id < |w.intents| && w.intents[id].phase.Continuing?
    && var p := w.intents[id].phase;
    && CanLink(w, p.next)
    && w'.gate.tail == w.gate.tail[1..] && w'.gate.activeBatchId == w.gate.activeBatchId
    && w'.intents == w.intents[id := Intent(w.intents[id].args, w'.block, Finished(p.batch))]
                        [p.next.nextId := Intent(w.intents[p.next.nextId].args, w'.block,
                           Resumed(ResumeSignal(true, Some(p.next.nextSeq), First(w.gate.tail[1..])), p.batch))]
    && SameBooks(w, w', w.gate.pending - {p.next.nextId})
  }

  ghost predicate BreakMove(w: World, w': World, id: nat) {
    && id < |w.intents| && w.intents[id].phase.Continuing?
    && !CanLink(w, w.intents[id].phase.next)
    && w' == w.(block := w'.block, intents := Put(w, id, Finished(w.intents[id].phase.batch), w'.block))
  }

  ghost predicate ForeignMove(w: World, w': World) {
    && |w'.ran| > 0 && w'.ran[|w'.ran| - 1].origin.FromOutside?
    && w' == w.(block := w'.block, ran := w.ran + [w'.ran[|w'.ran| - 1]])
  }

  ghost predicate Moves(w: World, w': World, kind: Kind) {
    && w.block <= w'.block
    && match kind
       case Quiet => QuietMove(w, w')
       case Reset => ResetMove(w, w')
       case Parking => ParkingMove(w, w')
       case Single(id, approve) => SingleMove(w, w', id, approve)
       case Start(ids) => StartMove(w, w', ids)
       case Expire(id) => ExpireMove(w, w', id)
       case Refuse(id) => RefuseMove(w, w', id)
       case Abort(id) => AbortMove(w, w', id)
       case Send(id) => SendMove(w, w', id)
       case Arrive(id) => ArriveMove(w, w', id)
       case Pull(id) => PullMove(w, w', id)
       case Link(id) => LinkMove(w, w', id)
       case Break(id) => BreakMove(w, w', id)
       case Foreign => ForeignMove(w, w')
  }

  // ---- every step satisfies its equation ----

  lemma ReleaseTakesItsOwnYield(w: World, ctx: Ctx, g: GateState, id: u64, signal: ResumeSignal)
    requires Inv(w) && ctx.waiting == WaitingYields(w)
    requires g.pending == w.gate.pending
    ensures Release(g, ctx, id, signal).Commit? <==> id < |w.intents| && w.intents[id].phase == Waiting
    ensures Release(g, ctx, id, signal).Commit? ==>
              Release(g, ctx, id, signal) == Commit(g.(pending := w.gate.pending - {id}), Resume(id, signal))
  {
  }

  // A committed submission parked a delegate that passed every check.
  lemma Admitted(host: Host, g: GateState, ctx: Ctx, input: Bytes) returns (d: DelegateAction, fc: FunctionCallAction)
    requires Submit(host, g, ctx, input).Commit?
    ensures ctx.predecessor in g.relayers
    ensures TryFromSlice(host, input).Ok? && Verify(host, TryFromSlice(host, input).value)
    ensures d == TryFromSlice(host, input).value.delegateAction && SingleFunctionCall(d) == Some(fc)
    ensures d.maxBlockHeight > ctx.block && NonceKey(d.senderId, d.nonce) !in g.usedNonces
    ensures Submit(host, g, ctx, input) == Park(g, ctx, d, fc)
  {
    d := TryFromSlice(host, input).value.delegateAction;
    fc := SingleFunctionCall(d).value;
  }

  lemma ParkMoves(w: World, ctx: Ctx, m: Method, d: DelegateAction, fc: FunctionCallAction)
    requires Inv(w) && w.block <= ctx.block && ctx.newYieldId == |w.intents|
    requires NonceKey(d.senderId, d.nonce) !in w.gate.usedNonces
    requires Park(w.gate, ctx, d, fc).Commit?
    ensures ParkingMove(w, ApplyTx(w, ctx.block, m, Park(w.gate, ctx, d, fc)))
  {
    var g := Park(w.gate, ctx, d, fc).g;
    assert g.usedNonces.Keys == w.gate.usedNonces.Keys + {NonceKey(d.senderId, d.nonce)};
    assert g.pending == w.gate.pending[w.gate.nextIntentId := g.pending[w.gate.nextIntentId]];
  }

  lemma SingleMoves(w: World, ctx: Ctx, id: u64, approve: bool)
    requires Inv(w) && ctx.waiting == WaitingYields(w)
    requires ResumeOne(w.gate, ctx, id, approve).Commit?
    ensures var w' := ApplyTx(w, ctx.block, ResumeIntent(id, approve), ResumeOne(w.gate, ctx, id, approve));
            SingleMove(w, w', id, approve)
  {
    ReleaseTakesItsOwnYield(w, ctx, ChargeFee(w.gate, ctx.attached, 1).g, id, ResumeSignal(approve, None, None));
  }

  lemma StartMoves(w: World, ctx: Ctx, ids: IdList)
    requires Inv(w) && ctx.waiting == WaitingYields(w)
    requires ResumeBatch(w.gate, ctx, ids).Commit?
    ensures StartMove(w, ApplyTx(w, ctx.block, ResumeBatchChained(ids), ResumeBatch(w.gate, ctx, ids)), ids)
  {
    var paid := ChargeFee(w.gate, ctx.attached, |ids|).g;
    ReleaseTakesItsOwnYield(w, ctx, paid.(activeBatchId := paid.activeBatchId + 1, tail := ids[1..]), ids[0],
                            ResumeSignal(true, Some(0), First(ids[1..])));
  }

  // The counters cannot overflow once submitting has not: each counts distinct intents.
  lemma CountersBounded(w: World, id: nat)
    requires Inv(w) && id < |w.intents|
    ensures WasSent(w.intents[id].phase) == 0 ==> CanBump(w.gate.dispatched)
    ensures WasRejected(w.intents[id].phase) == 0 ==> CanBump(w.gate.rejected)
  {
    var it := w.intents[id];
    var sent, refused := it.(phase := Finished(0)), it.(phase := Rejected(true));
    SumUpdate(w.intents, id, sent, WasSent);
    SumBelow(w.intents[id := sent], WasSent, 1);
    SumUpdate(w.intents, id, refused, WasRejected);
    SumBelow(w.intents[id := refused], WasRejected, 1);
  }

  // A callback that is not made to fail either resolves its intent or, when the chain number overflows, fails.
  lemma CallbackMoves(host: Host, w: World, ctx: Ctx, block: u64, id: nat)
    requires Inv(w) && id < |w.intents| && w.block <= block && ctx.predecessor == host.currentAccount
    requires w.intents[id].phase.TimedOut? || w.intents[id].phase.Resumed?
    ensures var p := w.intents[id].phase;
            var o := OnIntentResumed(host, w.gate, ctx, w.intents[id].args, SignalOf(p));
            var w' := ApplyCallback(w, block, id, o);
            if p.TimedOut? || !p.signal.approve then RefuseMove(w, w', id)
            else if o.Panic? then AbortMove(w, w', id)
            else SendMove(w, w', id)
  {
    CountersBounded(w, id);
    if w.intents[id].phase.Resumed? {
      assert w.gate.pending - {id} == w.gate.pending;
    }
  }

  lemma ChainMoves(host: Host, w: World, ctx: Ctx, id: nat)
    requires Inv(w) && id < |w.intents| && w.intents[id].phase.Continuing?
    requires w.block <= ctx.block && ctx.waiting == WaitingYields(w) && ctx.predecessor == host.currentAccount
    ensures var o := ContinueChain(host, w.gate, ctx, w.intents[id].phase.next);
            var w' := ApplyChain(w, ctx.block, id, o);
            if o.Panic? then BreakMove(w, w', id) else LinkMove(w, w', id)
  {
    var next := w.intents[id].phase.next;
    var g := w.gate;
    if |g.tail| > 0 && g.tail[0] == next.nextId {
      ReleaseTakesItsOwnYield(w, ctx, g.(tail := g.tail[1..]), next.nextId,
                              ResumeSignal(true, Some(next.nextSeq), First(g.tail[1..])));
    }
  }

  lemma PullMoves(host: Host, w: World, s: Step, next: Then)
    requires Inv(w) && Enabled(w, s) && s.event.Target?
    ensures var o := ContinueChain(host, w.gate, CtxOf(host, w, s), next);
            if o.Commit? then o.effect.Resume? && PullMove(w, ApplyTarget(w, s, o), s.event.id)
            else ArriveMove(w, ApplyTarget(w, s, o), s.event.id)
  {
    var g := w.gate;
    if |g.tail| > 0 && g.tail[0] == next.nextId {
      ReleaseTakesItsOwnYield(w, CtxOf(host, w, s), g.(tail := g.tail[1..]), next.nextId,
                              ResumeSignal(true, Some(next.nextSeq), First(g.tail[1..])));
    }
  }

  // A dispatched call runs; one that is addressed to the gate's continue_chain may release an intent.
  lemma TargetMoves(host: Host, w: World, s: Step)
    requires Inv(w) && Enabled(w, s) && s.event.Target?
    ensures Moves(w, Next(host, w, s), KindOf(host, w, s))
  {
    if !s.event.cut {
      match SelfChain(host, w.intents[s.event.id].phase.call)
      case Some(next) => PullMoves(host, w, s, next);
      case None =>
    }
  }

  lemma OwnerMoves(host: Host, w: World, ctx: Ctx, m: Method)
    requires !m.SubmitIntent? && !m.ResumeIntent? && !m.ResumeBatchChained?
    requires Invoke(host, w.gate, ctx, m).Commit?
    ensures var w' := ApplyTx(w, ctx.block, m, Invoke(host, w.gate, ctx, m));
            if m.ResetBatchTail? then ResetMove(w, w') else QuietMove(w, w')
  {
  }

  lemma SubmitStep(host: Host, w: World, s: Step)
    requires Inv(w) && Enabled(w, s) && s.event.Tx? && s.event.call.SubmitIntent?
    ensures Moves(w, Next(host, w, s), KindOf(host, w, s))
  {
    var ctx, m := CtxOf(host, w, s), s.event.call;
    if OutcomeOf(host, w, s).Commit? {
      var d, fc := Admitted(host, w.gate, ctx, m.signedDelegate);
      ParkMoves(w, ctx, m, d, fc);
    }
  }

  lemma SingleStep(host: Host, w: World, s: Step)
    requires Inv(w) && Enabled(w, s) && s.event.Tx? && s.event.call.ResumeIntent?
    ensures Moves(w, Next(host, w, s), KindOf(host, w, s))
  {
    var m := s.event.call;
    if OutcomeOf(host, w, s).Commit? {
      SingleMoves(w, CtxOf(host, w, s), m.intentId, m.approve);
    }
  }

  lemma StartStep(host: Host, w: World, s: Step)
    requires Inv(w) && Enabled(w, s) && s.event.Tx? && s.event.call.ResumeBatchChained?
    ensures Moves(w, Next(host, w, s), KindOf(host, w, s))
  {
    if OutcomeOf(host, w, s).Commit? {
      StartMoves(w, CtxOf(host, w, s), s.event.call.intentIds);
    }
  }

  lemma OwnerStep(host: Host, w: World, s: Step)
    requires Inv(w) && Enabled(w, s) && s.event.Tx?
    requires !s.event.call.SubmitIntent? && !s.event.call.ResumeIntent? && !s.event.call.ResumeBatchChained?
    ensures Moves(w, Next(host, w, s), KindOf(host, w, s))
  {
    var ctx, m := CtxOf(host, w, s), s.event.call;
    if Invoke(host, w.gate, ctx, m).Commit? {
      OwnerMoves(host, w, ctx, m);
    }
  }

  lemma CallbackStep(host: Host, w: World, s: Step)
    requires Inv(w) && Enabled(w, s) && s.event.Callback?
    ensures Moves(w, Next(host, w, s), KindOf(host, w, s))
  {
    if !s.event.abort {
      CallbackMoves(host, w, CtxOf(host, w, s), s.block, s.event.id);
    }
  }

  lemma ChainStep(host: Host, w: World, s: Step)
    requires Inv(w) && Enabled(w, s) && s.event.Chain?
    ensures Moves(w, Next(host, w, s), KindOf(host, w, s))
  {
    ChainMoves(host, w, CtxOf(host, w, s), s.event.id);
  }

  // Every step satisfies the equation of its kind.
  lemma StepMoves(host: Host, w: World, s: Step)
    requires Inv(w) && Enabled(w, s)
    ensures Moves(w, Next(host, w, s), KindOf(host, w, s))
  {
    if s.event.Tx? {
      match s.event.call {
        case SubmitIntent(_) => SubmitStep(host, w, s);
        case ResumeIntent(_, _) => SingleStep(host, w, s);
        case ResumeBatchChained(_) => StartStep(host, w, s);
        case _ => OwnerStep(host, w, s);
      }
    } else if s.event.Callback? {
      CallbackStep(host, w, s);
    } else if s.event.Chain? {
      ChainStep(host, w, s);
    } else if s.event.Target? {
      TargetMoves(host, w, s);
    }
  }

  // ---- roles ----

  lemma GateAfterTx(w: World, block: u64, m: Method, o: Outcome)
    ensures ApplyTx(w, block, m, o).gate == if o.Commit? then o.g else w.gate
  {
  }

  lemma TxRoles(host: Host, g: GateState, ctx: Ctx, m: Method)
    ensures var o := Invoke(host, g, ctx, m);
            var g', byOwner := (if o.Commit? then o.g else g), ctx.predecessor == g.owner;
            && g'.owner == g.owner
            && g'.approver == (if byOwner && m.SetApprover? then m.account else g.approver)
            && g'.relayers == (if byOwner && m.AddRelayer? then g.relayers + {m.account}
                               else if byOwner && m.RemoveRelayer? then g.relayers - {m.account}
                               else g.relayers)
  {
    if m.SubmitIntent? && Invoke(host, g, ctx, m).Commit? {
      var d, fc := Admitted(host, g, ctx, m.signedDelegate);
    }
  }

  lemma ReceiptRoles(host: Host, w: World, s: Step)
    requires Enabled(w, s) && !s.event.Tx?
    ensures var g, g' := w.gate, Next(host, w, s).gate;
            g'.owner == g.owner && g'.approver == g.approver && g'.relayers == g.relayers
  {
  }

  // The owner never changes. The relayers and the approver change only by the owner's own calls, and then by
  // exactly the account named.
  lemma StepRoles(host: Host, w: World, s: Step)
    requires Enabled(w, s)
    ensures var g, g' := w.gate, Next(host, w, s).gate;
            var byOwner := s.event.Tx? && s.event.caller == g.owner;
            && g'.owner == g.owner
            && g'.approver == (if byOwner && s.event.call.SetApprover? then s.event.call.account else g.approver)
            && g'.relayers == (if byOwner && s.event.call.AddRelayer? then g.relayers + {s.event.call.account}
                               else if byOwner && s.event.call.RemoveRelayer? then g.relayers - {s.event.call.account}
                               else g.relayers)
  {
    if s.event.Tx? {
      TxRoles(host, w.gate, CtxOf(host, w, s), s.event.call);
      assert OutcomeOf(host, w, s) == Invoke(host, w.gate, CtxOf(host, w, s), s.event.call);
      GateAfterTx(w, s.block, s.event.call, OutcomeOf(host, w, s));
    } else {
      ReceiptRoles(host, w, s);
    }
  }
}
