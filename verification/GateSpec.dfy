/** The gate contract as functions on its state: what each entry point does to the storage, what it
    asks of the runtime, and why it panics. The class in GateContract is proved equal to these. */
module GateSpec {
  import opened Types
  import opened Borsh
  import opened Nep366
  import opened Nonces

  datatype Tier = Tier(cap: u32, fee: u128)

  const DEFAULT_FEE_TIERS: seq<Tier> := [
    Tier(3, 30_000_000_000_000_000_000_000),
    Tier(6, 50_000_000_000_000_000_000_000),
    Tier(12, 60_000_000_000_000_000_000_000)
  ]

  // The function call a signed intent carries; the gate passes it on verbatim.
  datatype Call = Call(receiver: AccountId, methodName: Str, args: Str, deposit: u128, gas: u64)

  // Arguments baked into a yield when it is created.
  datatype CallbackArgs = CallbackArgs(intentId: u64, call: Call)

  datatype PendingIntent = PendingIntent(
    yieldId: nat,
    sender: AccountId,
    call: Call,
    nonce: u64,
    expiresAtBlock: u64,
    submittedAtBlock: u64
  )

  datatype ResumeSignal = ResumeSignal(approve: bool, sequenceNumber: Option<u32>, nextIntentId: Option<u64>)

  // The `continue_chain(next_id, next_seq)` callback chained onto a dispatched call.
  datatype Then = Then(nextId: u64, nextSeq: u32)

  type IdList = s: seq<u64> | |s| < 0x1_0000_0000

  datatype GateState = GateState(
    owner: AccountId,
    approver: AccountId,
    relayers: set<AccountId>,
    pending: map<u64, PendingIntent>,
    usedNonces: map<Bytes, u64>,
    nextIntentId: u64,
    submitted: u64,
    dispatched: u64,
    rejected: u64,
    tail: seq<u64>,
    activeBatchId: u64,
    tiers: seq<Tier>,
    collected: u128,
    withdrawn: u128
  )

  // What a receipt sees besides storage. `waiting` are the yields the runtime would still resume.
  datatype Ctx = Ctx(predecessor: AccountId, attached: u128, block: u64, newYieldId: nat, waiting: set<nat>)

  datatype Effect =
    | NoEffect
    | NewYield(args: CallbackArgs)
    | Resume(yieldId: nat, signal: ResumeSignal)
    | Dispatch(call: Call, chained: Option<Then>)
    | Transfer(to: AccountId, amount: u128)

  datatype Reason =
    | NotOwner | NotRelayer | NotApprover
    | InvalidDelegate(error: ParseError) | BadSignature | Expired | NonceUsed | NotSingleAction
    | CounterOverflow
    | NoTiers | BatchTooBig | InsufficientFee | FeesOverflow
    | TiersEmpty | TierCapZero | TierCapsNotAscending
    | InsufficientFeeBalance
    | BatchEmpty | BatchInFlight | UnknownIntent | ResumeFailed
    | PrivateMethod | TailEmpty | TailMismatch
    | OutOfGas   // raised by the virtual machine, never by the contract's own code

  // A receipt either commits a new state and asks the runtime for something, or panics and commits nothing.
  datatype Outcome = Commit(g: GateState, effect: Effect) | Panic(reason: Reason)

  // What an account may call in a transaction.
  datatype Method =
    | AddRelayer(account: AccountId)
    | RemoveRelayer(account: AccountId)
    | SetApprover(account: AccountId)
    | SetFeeTiers(tiers: seq<Tier>)
    | WithdrawFees(amount: u128, to: AccountId)
    | ResetBatchTail
    | SubmitIntent(signedDelegate: Bytes)
    | ResumeIntent(intentId: u64, approve: bool)
    | ResumeBatchChained(intentIds: IdList)

  // Everything that can reach the contract: public calls, and calls to its two private methods.
  datatype Entry =
    | External(call: Method)
    | ChainCallback(next: Then)
    | YieldCallback(args: CallbackArgs, signal: Option<ResumeSignal>)

  function Init(owner: AccountId, approver: AccountId): GateState {
    GateState(owner, approver, {}, map[], map[], 0, 0, 0, 0, [], 0, DEFAULT_FEE_TIERS, 0, 0)
  }

  // Checked `+= 1` on a u64 counter.
  predicate CanBump(x: u64) { x + 1 < U64_LIMIT }

  function First(s: seq<u64>): Option<u64> {
    if |s| == 0 then None else Some(s[0])
  }

  // ---- fees ----

  // First reason the caps are not positive and strictly ascending above `prev`, if any.
  function TierFault(tiers: seq<Tier>, prev: u32): Option<Reason> {
    if |tiers| == 0 then None
    else if tiers[0].cap == 0 then Some(TierCapZero)
    else if tiers[0].cap <= prev then Some(TierCapsNotAscending)
    else TierFault(tiers[1..], tiers[0].cap)
  }

  function SetTiers(g: GateState, ctx: Ctx, tiers: seq<Tier>): Outcome {
    if ctx.predecessor != g.owner then Panic(NotOwner)
    else if |tiers| == 0 then Panic(TiersEmpty)
    else match TierFault(tiers, 0)
      case Some(fault) => Panic(fault)
      case None => Commit(g.(tiers := tiers), NoEffect)
  }

  function FirstCover(tiers: seq<Tier>, n: u32): Option<Tier> {
    if |tiers| == 0 then None
    else if n <= tiers[0].cap then Some(tiers[0])
    else FirstCover(tiers[1..], n)
  }

  function ChargeFee(g: GateState, attached: u128, n: u32): Outcome {
    if |g.tiers| == 0 then Panic(NoTiers)
    else match FirstCover(g.tiers, n)
      case None => Panic(BatchTooBig)
      case Some(tier) =>
        if attached < tier.fee then Panic(InsufficientFee)
        else if g.collected + tier.fee >= U128_LIMIT then Panic(FeesOverflow)
        else Commit(g.(collected := g.collected + tier.fee), NoEffect)
  }

  function WithdrawFeesSpec(g: GateState, ctx: Ctx, amount: u128, to: AccountId): Outcome {
    var available := if g.withdrawn <= g.collected then g.collected - g.withdrawn else 0;
    if ctx.predecessor != g.owner then Panic(NotOwner)
    else if amount > available then Panic(InsufficientFeeBalance)
    else if g.withdrawn + amount >= U128_LIMIT then Panic(FeesOverflow)
    else Commit(g.(withdrawn := g.withdrawn + amount), Transfer(to, amount))
  }

  // A call that runs the contract's own private `continue_chain`. The method takes no deposit.
  const CONTINUE_CHAIN: Bytes := [99, 111, 110, 116, 105, 110, 117, 101, 95, 99, 104, 97, 105, 110]

  function SelfChain(host: Host, call: Call): Option<Then> {
    if call.receiver != host.currentAccount || call.methodName != CONTINUE_CHAIN || call.deposit != 0 then None
    else match host.chainArgs(call.args)
      case Some(read) => Some(Then(read.0, read.1))
      case None => None
  }

  // ---- intents ----

  // Park an admitted delegate: mint its id, burn its nonce, remember it, create its yield.
  function Park(g: GateState, ctx: Ctx, d: DelegateAction, fc: FunctionCallAction): Outcome {
    if !CanBump(g.nextIntentId) || !CanBump(g.submitted) then Panic(CounterOverflow)
    else
      var id := g.nextIntentId;
      var call := Call(d.receiverId, fc.methodName, fc.args, fc.deposit, fc.gas);
      var entry := PendingIntent(ctx.newYieldId, d.senderId, call, d.nonce, d.maxBlockHeight, ctx.block);
      Commit(g.(nextIntentId := id + 1,
                submitted := g.submitted + 1,
                usedNonces := g.usedNonces[NonceKey(d.senderId, d.nonce) := ctx.block],
                pending := g.pending[id := entry]),
             NewYield(CallbackArgs(id, call)))
  }

  function Submit(host: Host, g: GateState, ctx: Ctx, input: Bytes): Outcome {
    if ctx.predecessor !in g.relayers then Panic(NotRelayer)
    else match TryFromSlice(host, input)
      case Err(e) => Panic(InvalidDelegate(e))
      case Ok(signed, _) =>
        var d := signed.delegateAction;
        if !Verify(host, signed) then Panic(BadSignature)
        else if d.maxBlockHeight <= ctx.block then Panic(Expired)
        else if NonceKey(d.senderId, d.nonce) in g.usedNonces then Panic(NonceUsed)
        else match SingleFunctionCall(d)
          case None => Panic(NotSingleAction)
          case Some(fc) => Park(g, ctx, d, fc)
  }

  // Take an intent out of `pending` and resume its yield with `signal`.
  function Release(g: GateState, ctx: Ctx, id: u64, signal: ResumeSignal): Outcome {
    if id !in g.pending then Panic(UnknownIntent)
    else if g.pending[id].yieldId !in ctx.waiting then Panic(ResumeFailed)
    else Commit(g.(pending := g.pending - {id}), Resume(g.pending[id].yieldId, signal))
  }

  function ResumeOne(g: GateState, ctx: Ctx, id: u64, approve: bool): Outcome {
    if ctx.predecessor != g.approver then Panic(NotApprover)
    else match ChargeFee(g, ctx.attached, 1)
      case Panic(reason) => Panic(reason)
      case Commit(paid, _) => Release(paid, ctx, id, ResumeSignal(approve, None, None))
  }

  function ResumeBatch(g: GateState, ctx: Ctx, ids: IdList): Outcome {
    if ctx.predecessor != g.approver then Panic(NotApprover)
    else if |ids| == 0 then Panic(BatchEmpty)
    else if |g.tail| > 0 then Panic(BatchInFlight)
    else match ChargeFee(g, ctx.attached, |ids|)
      case Panic(reason) => Panic(reason)
      case Commit(paid, _) =>
        if exists k :: 0 <= k < |ids| && ids[k] !in paid.pending then Panic(UnknownIntent)
        else if !CanBump(paid.activeBatchId) then Panic(CounterOverflow)
        else
          var started := paid.(activeBatchId := paid.activeBatchId + 1, tail := ids[1..]);
          Release(started, ctx, ids[0], ResumeSignal(true, Some(0), First(ids[1..])))
  }

  // A private method answers only to the contract's own account.
  function ContinueChain(host: Host, g: GateState, ctx: Ctx, next: Then): Outcome {
    if ctx.predecessor != host.currentAccount then Panic(PrivateMethod)
    else if |g.tail| == 0 then Panic(TailEmpty)
    else if g.tail[0] != next.nextId then Panic(TailMismatch)
    else Release(g.(tail := g.tail[1..]), ctx, next.nextId,
                 ResumeSignal(true, Some(next.nextSeq), First(g.tail[1..])))
  }

  // The yield callback. `signal` is None when the yield timed out.
  function OnIntentResumed(host: Host, g: GateState, ctx: Ctx, args: CallbackArgs,
                           signal: Option<ResumeSignal>): Outcome {
    var cleaned := g.(pending := g.pending - {args.intentId});
    if ctx.predecessor != host.currentAccount then Panic(PrivateMethod)
    else if signal.None? || !signal.value.approve then
      if !CanBump(g.rejected) then Panic(CounterOverflow)
      else Commit(cleaned.(rejected := g.rejected + 1), NoEffect)
    else if !CanBump(g.dispatched) then Panic(CounterOverflow)
    else
      var resolved := cleaned.(dispatched := g.dispatched + 1);
      match signal.value.nextIntentId
      case None => Commit(resolved, Dispatch(args.call, None))
      case Some(next) =>
        match signal.value.sequenceNumber
        case None => Commit(resolved, Dispatch(args.call, Some(Then(next, 1))))
        case Some(seqNo) =>
          if seqNo + 1 >= U32_LIMIT then Panic(CounterOverflow)
          else Commit(resolved, Dispatch(args.call, Some(Then(next, seqNo + 1))))
  }

  function OwnerOnly(g: GateState, ctx: Ctx, g': GateState): Outcome {
    if ctx.predecessor != g.owner then Panic(NotOwner) else Commit(g', NoEffect)
  }

  function Invoke(host: Host, g: GateState, ctx: Ctx, m: Method): Outcome {
    match m
    case AddRelayer(a) => OwnerOnly(g, ctx, g.(relayers := g.relayers + {a}))
    case RemoveRelayer(a) => OwnerOnly(g, ctx, g.(relayers := g.relayers - {a}))
    case SetApprover(a) => OwnerOnly(g, ctx, g.(approver := a))
    case SetFeeTiers(tiers) => SetTiers(g, ctx, tiers)
    case WithdrawFees(amount, to) => WithdrawFeesSpec(g, ctx, amount, to)
    case ResetBatchTail => OwnerOnly(g, ctx, g.(tail := []))
    case SubmitIntent(input) => Submit(host, g, ctx, input)
    case ResumeIntent(id, approve) => ResumeOne(g, ctx, id, approve)
    case ResumeBatchChained(ids) => ResumeBatch(g, ctx, ids)
  }

  function Execute(host: Host, g: GateState, ctx: Ctx, entry: Entry): Outcome {
    match entry
    case External(m) => Invoke(host, g, ctx, m)
    case ChainCallback(next) => ContinueChain(host, g, ctx, next)
    case YieldCallback(args, signal) => OnIntentResumed(host, g, ctx, args, signal)
  }
}
