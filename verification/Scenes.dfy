/** Concrete worlds, described by what tells them apart, and the steps between them. Witnesses builds its runs
    from these. */
module Scenes {
  import opened Types
  import Borsh
  import opened Nep366
  import opened Nonces
  import opened GateSpec
  import opened Runtime
  import opened StepEquations
  import opened Ledger
  import opened Discipline
  import EntryPoints

  // One account is owner, approver, relayer, sender and target, and every signature is good. The gate itself is
  // another account. Whatever the arguments of a call, continue_chain reads them as (1, 7).
  const ANYONE: AccountId := [97, 110, 121, 46, 110, 101, 97, 114]      // any.near
  const GATE: AccountId := [103, 97, 116, 101, 46, 110, 101, 97, 114]   // gate.near
  const OTHER: AccountId := [111, 116, 104, 101, 114, 46, 110, 101, 97, 114]   // other.near
  const SET: Bytes := [115, 101, 116]

  const HOST := Host(GATE, (_: Bytes) => [], (_: Bytes, _: Bytes, _: Bytes) => true, (_: Bytes) => true,
                     (id: Bytes) => 2 <= |id| <= 64, (_: Bytes) => Some((1, 7)))

  const CALL := Call(ANYONE, SET, [], 0, 0)

  const SELF_CALL := Call(GATE, CONTINUE_CHAIN, [], 0, 0)

  const FEE: u128 := 30_000_000_000_000_000_000_000

  const EXPIRY: u64 := 100

  // In a selfish scene, intent 0 is addressed to the gate.
  function CallAt(selfish: bool, i: nat): Call {
    if selfish && i == 0 then SELF_CALL else CALL
  }

  function Delegate(selfish: bool, n: u64): SignedDelegateAction {
    var call := CallAt(selfish, n);
    SignedDelegateAction(
      DelegateAction(ANYONE, call.receiver, [FunctionCall(FunctionCallAction(call.methodName, [], 0, 0))],
                     n, EXPIRY, Zeros(32)),
      Zeros(64))
  }

  function Used(n: nat): map<Bytes, u64> {
    if n == 0 then map[] else Used(n - 1)[NonceKey(ANYONE, n - 1) := 0]
  }

  // All submissions happen in block 0; a slot is an intent's phase and the block since which it has been in it.
  datatype Slot = Slot(phase: Phase, since: nat)

  datatype Scene = Scene(selfish: bool, block: nat, slots: seq<Slot>, tail: seq<u64>, collected: u128,
                         batches: seq<seq<u64>>, trace: seq<Sent>, ran: seq<Ran>)

  predicate Fits(c: Scene) {
    |c.slots| < 100 && |c.trace| < 100 && |c.batches| < 100 && c.collected <= 2 * FEE && c.block < 1000
  }

  function Entry(selfish: bool, i: u64): PendingIntent { PendingIntent(i, ANYONE, CallAt(selfish, i), i, EXPIRY, 0) }

  function Parked(selfish: bool, slots: seq<Slot>): map<u64, PendingIntent> {
    map i: u64 | 0 <= i < |slots| && slots[i].phase == Waiting :: Entry(selfish, i)
  }

  function IntentsOf(selfish: bool, slots: seq<Slot>): seq<Intent>
    requires |slots| < 100
  {
    seq(|slots|, i requires 0 <= i < |slots| =>
      Intent(CallbackArgs(i, CallAt(selfish, i)), slots[i].since, slots[i].phase))
  }

  function GateOf(c: Scene): GateState
    requires Fits(c)
  {
    GateState(ANYONE, ANYONE, {ANYONE}, Parked(c.selfish, c.slots), Used(|c.slots|), |c.slots|, |c.slots|, |c.trace|, 0,
              c.tail, |c.batches|, DEFAULT_FEE_TIERS, c.collected, 0)
  }

  function WorldOf(c: Scene): World
    requires Fits(c)
  {
    World(GateOf(c), IntentsOf(c.selfish, c.slots), c.block, c.batches, c.trace, c.ran)
  }

  // `s` takes the world of `c` to the world of `c'`.
  ghost predicate Leads(c: Scene, s: Step, c': Scene) {
    Fits(c) && Fits(c') && Enabled(WorldOf(c), s) && Next(HOST, WorldOf(c), s) == WorldOf(c')
  }

  // ---- submitting ----

  const WAITS := Slot(Waiting, 0)

  lemma {:induction false} Fresh(n: nat, k: nat)
    requires n <= k
    ensures NonceKey(ANYONE, k) !in Used(n)
  {
    if n > 0 {
      Fresh(n - 1, k);
      if NonceKey(ANYONE, k) == NonceKey(ANYONE, n - 1) {
        NonceKeyInjective(ANYONE, k, ANYONE, n - 1);
      }
    }
  }

  function Submission(input: Bytes): Step { Step(0, Tx(ANYONE, 0, SubmitIntent(input))) }

  function Queued(c: Scene): Scene { c.(slots := c.slots + [WAITS]) }

  function Inputs(c: Scene): Bytes
    requires |c.slots| < 100
  {
    SerSigned(Delegate(c.selfish, |c.slots|))
  }

  lemma Admits(host: Host, g: GateState, ctx: Ctx, input: Bytes, x: SignedDelegateAction)
    requires TryFromSlice(host, input) == Borsh.Ok(x, []) && Verify(host, x) && ctx.predecessor in g.relayers
    requires ctx.block < x.delegateAction.maxBlockHeight && |x.delegateAction.actions| == 1
    requires NonceKey(x.delegateAction.senderId, x.delegateAction.nonce) !in g.usedNonces
    ensures Submit(host, g, ctx, input) == Park(g, ctx, x.delegateAction, x.delegateAction.actions[0].call)
  {
    assert SingleFunctionCall(x.delegateAction) == Some(x.delegateAction.actions[0].call);
  }

  function Yielded(c: Scene): Effect
    requires |c.slots| < 99
  {
    NewYield(CallbackArgs(|c.slots|, CallAt(c.selfish, |c.slots|)))
  }

  lemma Parks(c: Scene, ctx: Ctx)
    requires Fits(c) && |c.slots| < 99 && ctx.newYieldId == |c.slots| && ctx.block == 0
    ensures var d := Delegate(c.selfish, |c.slots|).delegateAction;
            Park(GateOf(c), ctx, d, d.actions[0].call) == Commit(GateOf(Queued(c)), Yielded(c))
  {
    assert Parked(c.selfish, Queued(c).slots) == Parked(c.selfish, c.slots)[|c.slots| := Entry(c.selfish, |c.slots|)];
  }

  lemma Accepts(c: Scene, ctx: Ctx)
    requires Fits(c) && |c.slots| < 99 && ctx.newYieldId == |c.slots| && ctx.block == 0 && ctx.predecessor == ANYONE
    ensures Invoke(HOST, GateOf(c), ctx, SubmitIntent(Inputs(c))) == Commit(GateOf(Queued(c)), Yielded(c))
  {
    var x := Delegate(c.selfish, |c.slots|);
    RoundTrip(HOST, x);
    Fresh(|c.slots|, |c.slots|);
    Admits(HOST, GateOf(c), ctx, Inputs(c), x);
    Parks(c, ctx);
    EntryPoints.Submits(HOST, GateOf(c), ctx, SubmitIntent(Inputs(c)), Commit(GateOf(Queued(c)), Yielded(c)));
  }

  lemma TransactionRuns(host: Host, w: World, s: Step)
    requires Enabled(w, s) && s.event.Tx?
    ensures Next(host, w, s) == ApplyTx(w, s.block, s.event.call, Invoke(host, w.gate, CtxOf(host, w, s), s.event.call))
  {
  }

  lemma ParkedWorld(c: Scene, m: Method)
    requires Fits(c) && |c.slots| < 99 && c.block == 0
    ensures ApplyTx(WorldOf(c), 0, m, Commit(GateOf(Queued(c)), Yielded(c))) == WorldOf(Queued(c))
  {
    var n := |c.slots|;
    assert IntentsOf(c.selfish, Queued(c).slots)
        == IntentsOf(c.selfish, c.slots) + [Intent(CallbackArgs(n, CallAt(c.selfish, n)), 0, Waiting)];
  }

  lemma AcceptedLeads(c: Scene, input: Bytes)
    requires Fits(c) && |c.slots| < 99 && c.block == 0
    requires Invoke(HOST, GateOf(c), CtxOf(HOST, WorldOf(c), Submission(input)), SubmitIntent(input))
          == Commit(GateOf(Queued(c)), Yielded(c))
    ensures Leads(c, Submission(input), Queued(c))
  {
    TransactionRuns(HOST, WorldOf(c), Submission(input));
    ParkedWorld(c, SubmitIntent(input));
  }

  lemma Submits(c: Scene)
    requires Fits(c) && |c.slots| < 99 && c.block == 0
    ensures Leads(c, Submission(Inputs(c)), Queued(c))
  {
    Accepts(c, CtxOf(HOST, WorldOf(c), Submission(Inputs(c))));
    AcceptedLeads(c, Inputs(c));
  }

  // ---- releasing ----

  function Put1(c: Scene, block: nat, id: nat, p: Phase): Scene
    requires id < |c.slots|
  {
    c.(block := block, slots := c.slots[id := Slot(p, block)])
  }

  lemma Unparked(selfish: bool, slots: seq<Slot>, id: nat, p: Phase, block: nat)
    requires id < |slots| < 100 && p != Waiting
    ensures Parked(selfish, slots) - {id} == Parked(selfish, slots[id := Slot(p, block)])
    ensures IntentsOf(selfish, slots)[id := IntentsOf(selfish, slots)[id].(phase := p, since := block)]
         == IntentsOf(selfish, slots[id := Slot(p, block)])
  {
  }

  function BatchStep(block: u64, ids: IdList): Step { Step(block, Tx(ANYONE, FEE, ResumeBatchChained(ids))) }

  function FirstRelease(c: Scene, ids: IdList): Phase
    requires 1 <= |ids|
  {
    Resumed(ResumeSignal(true, Some(0), First(ids[1..])), |c.batches| + 1)
  }

  function Paid(collected: u128): u128 { if collected <= FEE then collected + FEE else collected }

  function Started(c: Scene, ids: IdList): Scene
    requires 1 <= |ids| && ids[0] < |c.slots|
  {
    Put1(c, c.block, ids[0], FirstRelease(c, ids)).(
      tail := ids[1..], collected := Paid(c.collected), batches := c.batches + [ids])
  }

  lemma Starts(c: Scene, ids: IdList)
    requires Fits(c) && c.tail == [] && c.collected <= FEE && |c.batches| < 99 && 1 <= |ids| <= 3
    requires forall k :: 0 <= k < |ids| ==> ids[k] < |c.slots| && c.slots[ids[k]].phase == Waiting
    ensures Leads(c, BatchStep(c.block, ids), Started(c, ids))
    ensures KindOf(HOST, WorldOf(c), BatchStep(c.block, ids)) == Start(ids)
  {
    var w := WorldOf(c);
    Unparked(c.selfish, c.slots, ids[0], FirstRelease(c, ids), c.block);
    assert forall k :: 0 <= k < |ids| ==> ids[k] in w.gate.pending;
    assert ids[0] in WaitingYields(w);
    assert FirstCover(DEFAULT_FEE_TIERS, |ids|) == Some(DEFAULT_FEE_TIERS[0]);
  }

  function ApproveStep(block: u64, id: u64): Step { Step(block, Tx(ANYONE, FEE, ResumeIntent(id, true))) }

  const ALONE := Resumed(ResumeSignal(true, None, None), 0)

  function Singled(c: Scene, id: nat): Scene
    requires id < |c.slots|
  {
    Put1(c, c.block, id, ALONE).(collected := Paid(c.collected))
  }

  lemma Singles(c: Scene, id: u64)
    requires Fits(c) && c.collected <= FEE && id < |c.slots| && c.slots[id].phase == Waiting
    ensures Leads(c, ApproveStep(c.block, id), Singled(c, id))
  {
    var w := WorldOf(c);
    Unparked(c.selfish, c.slots, id, ALONE, c.block);
    assert id in w.gate.pending && id in WaitingYields(w);
    assert FirstCover(DEFAULT_FEE_TIERS, 1) == Some(DEFAULT_FEE_TIERS[0]);
  }

  lemma Resets(c: Scene)
    requires Fits(c)
    ensures Leads(c, Step(c.block, Tx(ANYONE, 0, ResetBatchTail)), c.(tail := []))
  {
  }

  // ---- receipts ----

  lemma SamePending(selfish: bool, slots: seq<Slot>, id: nat, p: Phase, block: nat)
    requires id < |slots| < 100 && slots[id].phase != Waiting && p != Waiting
    ensures Parked(selfish, slots) == Parked(selfish, slots[id := Slot(p, block)])
    ensures IntentsOf(selfish, slots)[id := IntentsOf(selfish, slots)[id].(phase := p, since := block)]
         == IntentsOf(selfish, slots[id := Slot(p, block)])
  {
    assert Parked(selfish, slots) - {id} == Parked(selfish, slots);
    Unparked(selfish, slots, id, p, block);
  }

  function CallPhase(c: Scene, id: nat): Phase
    requires id < |c.slots| && c.slots[id].phase.Resumed?
  {
    var p := c.slots[id].phase;
    Calling(CallAt(c.selfish, id), ChainedFor(p.signal), p.batch)
  }

  function Dispatched(c: Scene, id: nat, block: nat): Scene
    requires id < |c.slots| && c.slots[id].phase.Resumed?
  {
    var p := c.slots[id].phase;
    Put1(c, block, id, CallPhase(c, id)).(
      trace := c.trace + [Sent(id, CallAt(c.selfish, id), p.batch, p.signal.sequenceNumber, block)])
  }

  lemma Dispatches(c: Scene, id: nat, block: nat)
    requires Fits(c) && |c.trace| < 99 && c.block <= block < 1000
    requires id < |c.slots| && c.slots[id].phase.Resumed? && c.slots[id].phase.signal.approve
    requires c.slots[id].phase.signal.nextIntentId.Some? ==> ChainedFor(c.slots[id].phase.signal).Some?
    ensures Leads(c, Step(block, Callback(id, false)), Dispatched(c, id, block))
    ensures KindOf(HOST, WorldOf(c), Step(block, Callback(id, false))) == Send(id)
  {
    SamePending(c.selfish, c.slots, id, CallPhase(c, id), block);
    assert Parked(c.selfish, c.slots) - {id} == Parked(c.selfish, c.slots);
  }

  function Arrived(c: Scene, id: nat, block: nat): Scene
    requires id < |c.slots| && c.slots[id].phase.Calling?
  {
    var p := c.slots[id].phase;
    Put1(c, block, id, AfterCall(p)).(ran := c.ran + [Ran(p.call, FromGate(id, p.batch))])
  }

  lemma Arrives(c: Scene, id: nat, block: nat)
    requires Fits(c) && c.block <= block < 1000
    requires id < |c.slots| && c.slots[id].phase.Calling? && c.slots[id].phase.call == CALL
    ensures Leads(c, Step(block, Target(id, false)), Arrived(c, id, block))
    ensures KindOf(HOST, WorldOf(c), Step(block, Target(id, false))) == Arrive(id)
  {
    SamePending(c.selfish, c.slots, id, AfterCall(c.slots[id].phase), block);
    assert SelfChain(HOST, CALL) == None;
  }

  function PulledPhase(c: Scene): Phase
    requires |c.tail| > 0
  {
    Resumed(ResumeSignal(true, Some(7), First(c.tail[1..])), |c.batches|)
  }

  function Pulled(c: Scene, id: nat): Scene
    requires id < |c.slots| && c.slots[id].phase.Calling? && |c.tail| > 0 && c.tail[0] < |c.slots|
  {
    Put1(Arrived(c, id, c.block), c.block, c.tail[0], PulledPhase(c)).(tail := c.tail[1..])
  }

  // The gate's call to its own continue_chain releases the head of the tail.
  lemma Pulls(c: Scene, id: nat)
    requires Fits(c) && id < |c.slots| && c.slots[id].phase.Calling? && c.slots[id].phase.call == SELF_CALL
    requires |c.tail| > 0 && c.tail[0] == 1 < |c.slots| && c.slots[1].phase == Waiting
    ensures Leads(c, Step(c.block, Target(id, false)), Pulled(c, id))
  {
    var after := AfterCall(c.slots[id].phase);
    SamePending(c.selfish, c.slots, id, after, c.block);
    Unparked(c.selfish, c.slots[id := Slot(after, c.block)], 1, PulledPhase(c), c.block);
    assert 1 in WaitingYields(WorldOf(c));
    assert SelfChain(HOST, SELF_CALL) == Some(Then(1, 7));
  }

  function LinkedPhase(c: Scene, id: nat): Phase
    requires id < |c.slots| && c.slots[id].phase.Continuing? && |c.tail| > 0
  {
    var p := c.slots[id].phase;
    Resumed(ResumeSignal(true, Some(p.next.nextSeq), First(c.tail[1..])), p.batch)
  }

  function Linked(c: Scene, id: nat, block: nat): Scene
    requires id < |c.slots| && c.slots[id].phase.Continuing? && |c.tail| > 0 && c.tail[0] < |c.slots|
  {
    var done := Put1(c, block, id, Finished(c.slots[id].phase.batch));
    Put1(done, block, c.tail[0], LinkedPhase(c, id)).(tail := c.tail[1..])
  }

  lemma Links(c: Scene, id: nat, block: nat)
    requires Fits(c) && id < |c.slots| && c.slots[id].phase.Continuing? && c.block <= block < 1000
    requires |c.tail| > 0 && c.tail[0] == c.slots[id].phase.next.nextId < |c.slots|
    requires c.slots[c.tail[0]].phase == Waiting
    ensures Leads(c, Step(block, Event.Chain(id)), Linked(c, id, block))
    ensures KindOf(HOST, WorldOf(c), Step(block, Event.Chain(id))) == Link(id)
  {
    var done, y := Finished(c.slots[id].phase.batch), c.tail[0];
    SamePending(c.selfish, c.slots, id, done, block);
    Unparked(c.selfish, c.slots[id := Slot(done, block)], y, LinkedPhase(c, id), block);
    assert y in WaitingYields(WorldOf(c));
  }

  function Broken(c: Scene, id: nat): Scene
    requires id < |c.slots| && c.slots[id].phase.Continuing?
  {
    Put1(c, c.block, id, Finished(c.slots[id].phase.batch))
  }

  // continue_chain finds another head than it expects, or a head that no longer waits.
  lemma Breaks(c: Scene, id: nat)
    requires Fits(c) && id < |c.slots| && c.slots[id].phase.Continuing? && |c.tail| > 0
    requires c.tail[0] == c.slots[id].phase.next.nextId ==> c.tail[0] < |c.slots| && c.slots[c.tail[0]].phase != Waiting
    ensures Leads(c, Step(c.block, Event.Chain(id)), Broken(c, id))
    ensures OutcomeOf(HOST, WorldOf(c), Step(c.block, Event.Chain(id)))
         == Panic(if c.tail[0] == c.slots[id].phase.next.nextId then UnknownIntent else TailMismatch)
  {
    SamePending(c.selfish, c.slots, id, Finished(c.slots[id].phase.batch), c.block);
  }

  // Someone else calls some target.
  const ELSEWHERE := Call(OTHER, SET, [], 0, 0)

  function Passed(c: Scene, block: nat): Scene {
    c.(block := block, ran := c.ran + [Ran(ELSEWHERE, FromOutside(ANYONE))])
  }

  lemma Passes(c: Scene, block: nat)
    requires Fits(c) && c.block <= block < 1000
    ensures Leads(c, Step(block, Outside(ANYONE, ELSEWHERE)), Passed(c, block))
    ensures KindOf(HOST, WorldOf(c), Step(block, Outside(ANYONE, ELSEWHERE))) == Foreign
  {
  }

  // ---- putting the steps together ----

  lemma Extend(ws: seq<World>, steps: seq<Step>, c: Scene, s: Step, c': Scene)
    returns (ws': seq<World>, steps': seq<Step>)
    requires GateRun(HOST, ws, steps) && Leads(c, s, c') && ws[|ws| - 1] == WorldOf(c)
    ensures ws' == ws + [WorldOf(c')] && steps' == steps + [s] && GateRun(HOST, ws', steps')
  {
    ws', steps' := ws + [WorldOf(c')], steps + [s];
  }

  predicate IsReset(s: Step) { s.event.Tx? && s.event.call.ResetBatchTail? }

  function Queue(selfish: bool, n: nat): Scene { Scene(selfish, 0, seq(n, _ => WAITS), [], 0, [], [], []) }

  predicate Opens(s: Step) { s.event.Tx? && (s.event.call.SubmitIntent? || s.event.call.AddRelayer?) }

  // The owner has whitelisted the relayer, who then submitted `n` intents.
  ghost predicate Opening(ws: seq<World>, steps: seq<Step>, selfish: bool, n: nat) {
    && n <= 4 && GateRun(HOST, ws, steps) && |steps| == n + 1 && ws[n + 1] == WorldOf(Queue(selfish, n))
    && forall j :: 0 <= j <= n ==> Opens(steps[j])
  }

  lemma OpenOne(ws: seq<World>, steps: seq<Step>, selfish: bool, n: nat) returns (ws': seq<World>, steps': seq<Step>)
    requires Opening(ws, steps, selfish, n) && n < 4
    ensures Opening(ws', steps', selfish, n + 1)
  {
    var c := Queue(selfish, n);
    Submits(c);
    assert Queue(selfish, n + 1).slots == c.slots + [WAITS];
    ws', steps' := Extend(ws, steps, c, Submission(Inputs(c)), Queue(selfish, n + 1));
  }

  lemma {:induction false} Opened(selfish: bool, n: nat) returns (ws: seq<World>, steps: seq<Step>)
    requires n <= 4
    ensures Opening(ws, steps, selfish, n)
  {
    if n == 0 {
      var w := Genesis(ANYONE, ANYONE, 0);
      var s := Step(0, Tx(ANYONE, 0, AddRelayer(ANYONE)));
      ws, steps := [w, WorldOf(Queue(selfish, 0))], [s];
      assert Next(HOST, w, s) == WorldOf(Queue(selfish, 0));
    } else {
      ws, steps := Opened(selfish, n - 1);
      ws, steps := OpenOne(ws, steps, selfish, n - 1);
    }
  }

  // Where no intent is addressed to the gate, every approval is vetted.
  lemma PlainVets(c: Scene, s: Step)
    requires Fits(c) && !c.selfish && Enabled(WorldOf(c), s)
    ensures Vets(HOST, WorldOf(c), s)
  {
  }
}
