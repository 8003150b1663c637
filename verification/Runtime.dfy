/** The gate inside its asynchronous runtime: yields, the receipts in flight, and the scheduler.

    Each submitted intent has one yield, and every later receipt that stems from that yield (its
    callback, the dispatched call, the chain callback on that call) runs after the one before it. So
    the receipts in flight are exactly the phases of the intents.

    A dispatched call may be addressed to the gate itself, whose private `continue_chain` then answers, because
    the caller is the gate: the step in which that call runs also does what the method does. A call that the gate
    addresses to one of its own public methods is a transaction with the gate as the caller, next to the step in
    which the call itself resolves. A call to `on_intent_resumed` that is not a yield's callback carries no
    promise result to read, and fails. */
module Runtime {
  import opened Types
  import opened GateSpec

  datatype Phase =
    | Waiting                                                     // yielded, not resumed
    | TimedOut                                                    // the runtime gave up on it; its callback is due
    | Resumed(signal: ResumeSignal, batch: nat)                   // resumed; its callback is due
    | Calling(call: Call, chained: Option<Then>, batch: nat)      // dispatched; the target call is due
    | Continuing(next: Then, batch: nat)                          // the call resolved; continue_chain is due
    | Finished(batch: nat)                                        // dispatched, nothing left to run
    | Rejected(byTimeout: bool)
    | Aborted(batch: nat)                                         // the approve callback failed (gas, balance)

  // `batch` 0 marks an intent released on its own: batch numbers start at 1.
  datatype Intent = Intent(args: CallbackArgs, since: nat, phase: Phase)

  // One entry of the gate's `intent_dispatched` trace, and one call a target contract has run.
  datatype Sent = Sent(id: nat, call: Call, batch: nat, seqNo: Option<u32>, block: nat)
  datatype Origin = FromGate(id: nat, batch: nat) | FromOutside(account: AccountId)
  datatype Ran = Ran(call: Call, origin: Origin)

  datatype World = World(
    gate: GateState,
    intents: seq<Intent>,       // by yield id
    block: u64,
    batches: seq<seq<u64>>,     // history: the id list of every batch started, in order
    trace: seq<Sent>,           // history: every dispatch
    ran: seq<Ran>               // history: every call run by some target contract
  )

  datatype Event =
    | Tx(caller: AccountId, attached: u128, call: Method)
    | Outside(account: AccountId, outsideCall: Call)   // someone else calls a target contract
    | Timeout(id: nat)
    | Callback(id: nat, abort: bool)                   // on_intent_resumed; may fail only when approved
    | Target(id: nat, cut: bool)                       // the dispatched call runs, and succeeds or fails; a call to
                                                       // the gate itself may be cut short by the gas it was signed with
    | Chain(id: nat)                                   // the continue_chain receipt chained on id's call
  datatype Step = Step(block: u64, event: Event)

  function Genesis(owner: AccountId, approver: AccountId, block: u64): World {
    World(Init(owner, approver), [], block, [], [], [])
  }

  function WaitingYields(w: World): set<nat> {
    set y | 0 <= y < |w.intents| && w.intents[y].phase == Waiting
  }

  function CtxOf(host: Host, w: World, s: Step): Ctx {
    match s.event
    case Tx(caller, attached, _) => Ctx(caller, attached, s.block, |w.intents|, WaitingYields(w))
    case _ => Ctx(host.currentAccount, 0, s.block, |w.intents|, WaitingYields(w))
  }

  predicate Enabled(w: World, s: Step) {
    && w.block <= s.block
    && match s.event
       case Tx(_, _, _) => true
       case Outside(_, _) => true
       case Timeout(id) => id < |w.intents| && w.intents[id].phase == Waiting
       case Callback(id, abort) =>
         && id < |w.intents|
         && (match w.intents[id].phase
             case TimedOut => !abort
             case Resumed(signal, _) => abort ==> signal.approve
             case _ => false)
       case Target(id, _) => id < |w.intents| && w.intents[id].phase.Calling?
       case Chain(id) => id < |w.intents| && w.intents[id].phase.Continuing?
  }

  function Put(w: World, id: nat, phase: Phase, block: nat): seq<Intent> {
    if id < |w.intents| then w.intents[id := w.intents[id].(phase := phase, since := block)] else w.intents
  }

  function BatchOf(p: Phase): nat {
    match p
    case Resumed(_, b) => b
    case Calling(_, _, b) => b
    case Continuing(_, b) => b
    case Finished(b) => b
    case Aborted(b) => b
    case _ => 0
  }

  function SignalOf(p: Phase): Option<ResumeSignal> {
    if p.Resumed? then Some(p.signal) else None
  }

  // What the runtime makes of the outcome of a transaction ...
  function ApplyTx(w: World, block: u64, m: Method, o: Outcome): World {
    match o
    case Panic(_) => w.(block := block)
    case Commit(g, NewYield(args)) =>
      w.(gate := g, block := block, intents := w.intents + [Intent(args, block, Waiting)])
    case Commit(g, Resume(y, signal)) =>
      if m.ResumeBatchChained? then
        w.(gate := g, block := block, intents := Put(w, y, Resumed(signal, g.activeBatchId), block),
           batches := w.batches + [m.intentIds])
      else
        w.(gate := g, block := block, intents := Put(w, y, Resumed(signal, 0), block))
    case Commit(g, _) => w.(gate := g, block := block)
  }

  // ... of a yield callback (a callback that panicked or ran out of gas commits nothing) ...
  function ApplyCallback(w: World, block: u64, id: nat, o: Outcome): World
    requires id < |w.intents|
  {
    var it := w.intents[id];
    var b := BatchOf(it.phase);
    match o
    case Panic(_) => w.(block := block, intents := Put(w, id, Aborted(b), block))
    case Commit(g, Dispatch(call, chained)) =>
      var seqNo := if it.phase.Resumed? then it.phase.signal.sequenceNumber else None;
      w.(gate := g, block := block, intents := Put(w, id, Calling(call, chained, b), block),
         trace := w.trace + [Sent(id, call, b, seqNo, block)])
    case Commit(g, _) => w.(gate := g, block := block, intents := Put(w, id, Rejected(it.phase.TimedOut?), block))
  }

  // ... and of a continue_chain receipt.
  function ApplyChain(w: World, block: u64, id: nat, o: Outcome): World
    requires id < |w.intents| && w.intents[id].phase.Continuing?
  {
    var b := w.intents[id].phase.batch;
    var done := w.(block := block, intents := Put(w, id, Finished(b), block));
    match o
    case Commit(g, Resume(y, signal)) => done.(gate := g, intents := Put(done, y, Resumed(signal, b), block))
    case _ => done
  }

  function TargetNext(w: World, s: Step): World
    requires s.event.Target? && s.event.id < |w.intents| && w.intents[s.event.id].phase.Calling?
  {
    var id := s.event.id;
    var p := w.intents[id].phase;
    var after := match p.chained case Some(next) => Continuing(next, p.batch) case None => Finished(p.batch);
    w.(block := s.block, intents := Put(w, id, after, s.block), ran := w.ran + [Ran(p.call, FromGate(id, p.batch))])
  }

  // The dispatched call was the gate's own continue_chain, and released the head of the tail.
  function PullNext(w: World, s: Step, g: GateState, y: nat, signal: ResumeSignal): World
    requires s.event.Target? && s.event.id < |w.intents| && w.intents[s.event.id].phase.Calling?
  {
    var arrived := TargetNext(w, s);
    arrived.(gate := g, intents := Put(arrived, y, Resumed(signal, g.activeBatchId), s.block))
  }

  function ApplyTarget(w: World, s: Step, o: Outcome): World
    requires s.event.Target? && s.event.id < |w.intents| && w.intents[s.event.id].phase.Calling?
  {
    match o
    case Commit(g, Resume(y, signal)) => PullNext(w, s, g, y, signal)
    case _ => TargetNext(w, s)
  }

  // The contract code a step runs, if it runs any.
  function EntryOf(host: Host, w: World, e: Event): Option<Entry>
    requires e.Callback? ==> e.id < |w.intents|
    requires e.Target? ==> e.id < |w.intents| && w.intents[e.id].phase.Calling?
    requires e.Chain? ==> e.id < |w.intents| && w.intents[e.id].phase.Continuing?
  {
    match e
    case Tx(_, _, m) => Some(External(m))
    case Callback(id, _) => Some(YieldCallback(w.intents[id].args, SignalOf(w.intents[id].phase)))
    case Chain(id) => Some(ChainCallback(w.intents[id].phase.next))
    case Target(id, _) =>
      (match SelfChain(host, w.intents[id].phase.call) case Some(next) => Some(ChainCallback(next)) case None => None)
    case _ => None
  }

  function OutcomeOf(host: Host, w: World, s: Step): Outcome
    requires Enabled(w, s)
  {
    if s.event.Callback? && s.event.abort then Panic(OutOfGas)
    else if s.event.Target? && s.event.cut then Panic(OutOfGas)
    else match EntryOf(host, w, s.event)
      case Some(entry) => Execute(host, w.gate, CtxOf(host, w, s), entry)
      case None => Commit(w.gate, NoEffect)
  }

  function Next(host: Host, w: World, s: Step): World
    requires Enabled(w, s)
  {
    var o := OutcomeOf(host, w, s);
    match s.event
    case Tx(_, _, m) => ApplyTx(w, s.block, m, o)
    case Outside(account, call) => w.(block := s.block, ran := w.ran + [Ran(call, FromOutside(account))])
    case Timeout(id) => w.(block := s.block, intents := Put(w, id, TimedOut, s.block))
    case Callback(id, _) => ApplyCallback(w, s.block, id, o)
    case Target(_, _) => ApplyTarget(w, s, o)
    case Chain(id) => ApplyChain(w, s.block, id, o)
  }

  // A run: the worlds passed through, one step between each and the next.
  ghost predicate IsRun(host: Host, ws: seq<World>, steps: seq<Step>) {
    && |ws| == |steps| + 1
    && forall k :: 0 <= k < |steps| ==> Enabled(ws[k], steps[k]) && ws[k + 1] == Next(host, ws[k], steps[k])
  }

  ghost predicate FromGenesis(w: World) {
    exists owner, approver, block :: w == Genesis(owner, approver, block)
  }

  // ---- what a step amounts to ----

  datatype Kind =
    | Quiet                              // a panic, or owner bookkeeping
    | Reset                              // the owner cleared the batch tail
    | Parking                            // an intent was accepted
    | Single(id: nat, approve: bool)     // an intent was released on its own
    | Start(ids: seq<u64>)               // a batch was started
    | Expire(id: nat)
    | Refuse(id: nat)                    // a callback resolved its intent as rejected
    | Abort(id: nat)                     // an approve callback failed
    | Send(id: nat)                      // a callback dispatched its intent
    | Arrive(id: nat)                    // the target ran the call
    | Pull(id: nat)                      // the target was the gate's own continue_chain, which released an intent
    | Link(id: nat)                      // continue_chain released the next intent
    | Break(id: nat)                     // continue_chain panicked
    | Foreign                            // a call that did not come from the gate

  function KindFor(w: World, s: Step, o: Outcome): Kind
    requires Enabled(w, s)
  {
    match s.event
    case Tx(_, _, m) =>
      if o.Panic? then Quiet
      else (match m
        case SubmitIntent(_) => Parking
        case ResumeIntent(id, approve) => Single(id, approve)
        case ResumeBatchChained(ids) => Start(ids)
        case ResetBatchTail => Reset
        case _ => Quiet)
    case Outside(_, _) => Foreign
    case Timeout(id) => Expire(id)
    case Callback(id, _) =>
      if w.intents[id].phase.TimedOut? || !w.intents[id].phase.signal.approve then Refuse(id)
      else if o.Panic? then Abort(id)
      else Send(id)
    case Target(id, _) => if o.Commit? && o.effect.Resume? then Pull(id) else Arrive(id)
    case Chain(id) => if o.Panic? then Break(id) else Link(id)
  }

  function KindOf(host: Host, w: World, s: Step): Kind
    requires Enabled(w, s)
  {
    KindFor(w, s, OutcomeOf(host, w, s))
  }
}
