/** The gate contract as it runs: fields updated step by step, loops over tiers and ids, panics in the
    middle of an update. Every entry point is proved equal to its function in GateSpec. */
module GateContract {
  import opened Types
  import opened Nep366
  import opened Nonces
  import opened GateSpec
  import Nep366Io

  // How a receipt ends: with a request to the runtime, or with a panic.
  datatype Ending = Done(effect: Effect) | Panicked(reason: Reason)

  class Gate {
    var owner: AccountId
    var approver: AccountId
    var relayers: set<AccountId>
    var pending: map<u64, PendingIntent>
    var usedNonces: map<Bytes, u64>
    var nextIntentId: u64
    var submitted: u64
    var dispatched: u64
    var rejected: u64
    var tail: seq<u64>
    var activeBatchId: u64
    var tiers: seq<Tier>
    var collected: u128
    var withdrawn: u128

    // The storage as a value.
    function State(): GateState
      reads this
    {
      GateState(owner, approver, relayers, pending, usedNonces, nextIntentId, submitted, dispatched, rejected,
                tail, activeBatchId, tiers, collected, withdrawn)
    }

    // The receipt ended as `o` says, and left the storage of `o` when it did not panic.
    ghost predicate Ended(o: Outcome, e: Ending)
      reads this
    {
      match o
      case Commit(g, effect) => e == Done(effect) && State() == g
      case Panic(reason) => e == Panicked(reason)
    }

    constructor (owner: AccountId, approver: AccountId)
      ensures State() == Init(owner, approver)
    {
      this.owner, this.approver := owner, approver;
      relayers, pending, usedNonces := {}, map[], map[];
      nextIntentId, submitted, dispatched, rejected := 0, 0, 0, 0;
      tail, activeBatchId := [], 0;
      tiers, collected, withdrawn := DEFAULT_FEE_TIERS, 0, 0;
    }

    // ---- fees ----

    method FeeFor(n: u32) returns (tier: Option<Tier>)
      ensures tier == FirstCover(tiers, n)
    {
      var i := 0;
      while i < |tiers|
        invariant 0 <= i <= |tiers|
        invariant FirstCover(tiers, n) == FirstCover(tiers[i..], n)
      {
        if n <= tiers[i].cap {
          return Some(tiers[i]);
        }
        assert tiers[i..][1..] == tiers[i + 1..];
        i := i + 1;
      }
      tier := None;
    }

    method TakeFee(ctx: Ctx, n: u32) returns (e: Ending)
      modifies this
      ensures Ended(ChargeFee(old(State()), ctx.attached, n), e)
    {
      if |tiers| == 0 {
        return Panicked(NoTiers);
      }
      var tier := FeeFor(n);
      if tier.None? {
        return Panicked(BatchTooBig);
      }
      var required := tier.value.fee;
      if ctx.attached < required {
        return Panicked(InsufficientFee);
      }
      if collected + required >= U128_LIMIT {
        return Panicked(FeesOverflow);
      }
      collected := collected + required;
      e := Done(NoEffect);
    }

    method SetFeeTiers(ctx: Ctx, newTiers: seq<Tier>) returns (e: Ending)
      modifies this
      ensures Ended(SetTiers(old(State()), ctx, newTiers), e)
    {
      if ctx.predecessor != owner {
        return Panicked(NotOwner);
      }
      if |newTiers| == 0 {
        return Panicked(TiersEmpty);
      }
      var prevCap: u32 := 0;
      var i := 0;
      while i < |newTiers|
        invariant 0 <= i <= |newTiers|
        invariant TierFault(newTiers, 0) == TierFault(newTiers[i..], prevCap)
        invariant State() == old(State())
      {
        if newTiers[i].cap == 0 {
          return Panicked(TierCapZero);
        }
        if newTiers[i].cap <= prevCap {
          return Panicked(TierCapsNotAscending);
        }
        assert newTiers[i..][1..] == newTiers[i + 1..];
        prevCap := newTiers[i].cap;
        i := i + 1;
      }
      tiers := newTiers;
      e := Done(NoEffect);
    }

    method Withdraw(ctx: Ctx, amount: u128, to: AccountId) returns (e: Ending)
      modifies this
      ensures Ended(WithdrawFeesSpec(old(State()), ctx, amount, to), e)
    {
      if ctx.predecessor != owner {
        return Panicked(NotOwner);
      }
      var available := if withdrawn <= collected then collected - withdrawn else 0;
      if amount > available {
        return Panicked(InsufficientFeeBalance);
      }
      if withdrawn + amount >= U128_LIMIT {
        return Panicked(FeesOverflow);
      }
      withdrawn := withdrawn + amount;
      e := Done(Transfer(to, amount));
    }

    // ---- intents ----

    method SubmitIntent(host: Host, ctx: Ctx, input: Bytes) returns (e: Ending)
      modifies this
      ensures Ended(Submit(host, old(State()), ctx, input), e)
    {
      if ctx.predecessor !in relayers {
        return Panicked(NotRelayer);
      }
      var parsed := Nep366Io.TryParse(host, input);
      if parsed.Failure? {
        return Panicked(InvalidDelegate(parsed.error));
      }
      var signed := parsed.value;
      var valid := Nep366Io.VerifySignature(host, signed);
      if !valid {
        return Panicked(BadSignature);
      }
      var d := signed.delegateAction;
      if d.maxBlockHeight <= ctx.block {
        return Panicked(Expired);
      }
      if NonceKey(d.senderId, d.nonce) in usedNonces {
        return Panicked(NonceUsed);
      }
      var fc := SingleFunctionCall(d);
      if fc.None? {
        return Panicked(NotSingleAction);
      }
      e := ParkIntent(ctx, d, fc.value);
    }

    method ParkIntent(ctx: Ctx, d: DelegateAction, fc: FunctionCallAction) returns (e: Ending)
      modifies this
      ensures Ended(Park(old(State()), ctx, d, fc), e)
    {
      var id := nextIntentId;
      if !CanBump(nextIntentId) {
        return Panicked(CounterOverflow);
      }
      nextIntentId := nextIntentId + 1;
      usedNonces := usedNonces[NonceKey(d.senderId, d.nonce) := ctx.block];
      if !CanBump(submitted) {
        return Panicked(CounterOverflow);
      }
      submitted := submitted + 1;
      var call := Call(d.receiverId, fc.methodName, fc.args, fc.deposit, fc.gas);
      pending := pending[id := PendingIntent(ctx.newYieldId, d.senderId, call, d.nonce, d.maxBlockHeight, ctx.block)];
      e := Done(NewYield(CallbackArgs(id, call)));
    }

    method TakeAndResume(ctx: Ctx, id: u64, signal: ResumeSignal) returns (e: Ending)
      modifies this
      ensures Ended(Release(old(State()), ctx, id, signal), e)
    {
      if id !in pending {
        return Panicked(UnknownIntent);
      }
      var p := pending[id];
      pending := pending - {id};
      if p.yieldId !in ctx.waiting {
        return Panicked(ResumeFailed);
      }
      e := Done(Resume(p.yieldId, signal));
    }

    method ResumeIntent(ctx: Ctx, id: u64, approve: bool) returns (e: Ending)
      modifies this
      ensures Ended(ResumeOne(old(State()), ctx, id, approve), e)
    {
      if ctx.predecessor != approver {
        return Panicked(NotApprover);
      }
      e := TakeFee(ctx, 1);
      if e.Panicked? {
        return;
      }
      e := TakeAndResume(ctx, id, ResumeSignal(approve, None, None));
    }

    method ResumeBatchChained(ctx: Ctx, ids: IdList) returns (e: Ending)
      modifies this
      ensures Ended(ResumeBatch(old(State()), ctx, ids), e)
    {
      if ctx.predecessor != approver {
        return Panicked(NotApprover);
      }
      if |ids| == 0 {
        return Panicked(BatchEmpty);
      }
      if |tail| > 0 {
        return Panicked(BatchInFlight);
      }
      e := TakeFee(ctx, |ids|);
      if e.Panicked? {
        return;
      }
      var i := 0;
      while i < |ids|
        invariant 0 <= i <= |ids|
        invariant forall k :: 0 <= k < i ==> ids[k] in pending
        invariant ChargeFee(old(State()), ctx.attached, |ids|) == Commit(State(), NoEffect)
      {
        if ids[i] !in pending {
          return Panicked(UnknownIntent);
        }
        i := i + 1;
      }
      if !CanBump(activeBatchId) {
        return Panicked(CounterOverflow);
      }
      activeBatchId := activeBatchId + 1;
      tail := ids[1..];
      e := TakeAndResume(ctx, ids[0], ResumeSignal(true, Some(0), First(tail)));
    }

    method ContinueTheChain(host: Host, ctx: Ctx, next: Then) returns (e: Ending)
      modifies this
      ensures Ended(ContinueChain(host, old(State()), ctx, next), e)
    {
      if ctx.predecessor != host.currentAccount {
        return Panicked(PrivateMethod);
      }
      if |tail| == 0 {
        return Panicked(TailEmpty);
      }
      if tail[0] != next.nextId {
        return Panicked(TailMismatch);
      }
      tail := tail[1..];
      e := TakeAndResume(ctx, next.nextId, ResumeSignal(true, Some(next.nextSeq), First(tail)));
    }

    method Callback(host: Host, ctx: Ctx, args: CallbackArgs, signal: Option<ResumeSignal>) returns (e: Ending)
      modifies this
      ensures Ended(OnIntentResumed(host, old(State()), ctx, args, signal), e)
    {
      if ctx.predecessor != host.currentAccount {
        return Panicked(PrivateMethod);
      }
      pending := pending - {args.intentId};
      if signal.None? || !signal.value.approve {
        if !CanBump(rejected) {
          return Panicked(CounterOverflow);
        }
        rejected := rejected + 1;
        return Done(NoEffect);
      }
      if !CanBump(dispatched) {
        return Panicked(CounterOverflow);
      }
      dispatched := dispatched + 1;
      var chained := None;
      if signal.value.nextIntentId.Some? {
        var nextSeq: u32 := 1;
        if signal.value.sequenceNumber.Some? {
          if signal.value.sequenceNumber.value + 1 >= U32_LIMIT {
            return Panicked(CounterOverflow);
          }
          nextSeq := signal.value.sequenceNumber.value + 1;
        }
        chained := Some(Then(signal.value.nextIntentId.value, nextSeq));
      }
      e := Done(Dispatch(args.call, chained));
    }

    // ---- receipts ----

    method Restore(g: GateState)
      modifies this
      ensures State() == g
    {
      RestoreIntents(g);
      RestoreBatches(g);
    }

    method RestoreIntents(g: GateState)
      modifies `owner, `approver, `relayers, `pending, `usedNonces, `nextIntentId, `submitted
      ensures owner == g.owner && approver == g.approver && relayers == g.relayers
      ensures pending == g.pending && usedNonces == g.usedNonces
      ensures nextIntentId == g.nextIntentId && submitted == g.submitted
    {
      owner := g.owner;
      approver := g.approver;
      relayers := g.relayers;
      pending := g.pending;
      usedNonces := g.usedNonces;
      nextIntentId := g.nextIntentId;
      submitted := g.submitted;
    }

    method RestoreBatches(g: GateState)
      modifies `dispatched, `rejected, `tail, `activeBatchId, `tiers, `collected, `withdrawn
      ensures dispatched == g.dispatched && rejected == g.rejected
      ensures tail == g.tail && activeBatchId == g.activeBatchId
      ensures tiers == g.tiers && collected == g.collected && withdrawn == g.withdrawn
    {
      dispatched := g.dispatched;
      rejected := g.rejected;
      tail := g.tail;
      activeBatchId := g.activeBatchId;
      tiers := g.tiers;
      collected := g.collected;
      withdrawn := g.withdrawn;
    }

    method Transaction(host: Host, ctx: Ctx, m: Method) returns (e: Ending)
      modifies this
      ensures Ended(Invoke(host, old(State()), ctx, m), e)
    {
      match m
      case SubmitIntent(input) => e := SubmitIntent(host, ctx, input);
      case ResumeIntent(id, approve) => e := ResumeIntent(ctx, id, approve);
      case ResumeBatchChained(ids) => e := ResumeBatchChained(ctx, ids);
      case SetFeeTiers(newTiers) => e := SetFeeTiers(ctx, newTiers);
      case WithdrawFees(amount, to) => e := Withdraw(ctx, amount, to);
      case AddRelayer(a) =>
        if ctx.predecessor != owner {
          return Panicked(NotOwner);
        }
        relayers := relayers + {a};
        e := Done(NoEffect);
      case RemoveRelayer(a) =>
        if ctx.predecessor != owner {
          return Panicked(NotOwner);
        }
        relayers := relayers - {a};
        e := Done(NoEffect);
      case SetApprover(a) =>
        if ctx.predecessor != owner {
          return Panicked(NotOwner);
        }
        approver := a;
        e := Done(NoEffect);
      case ResetBatchTail =>
        if ctx.predecessor != owner {
          return Panicked(NotOwner);
        }
        tail := [];
        e := Done(NoEffect);
    }

    // One receipt: whatever was written before a panic is rolled back.
    method Receipt(host: Host, ctx: Ctx, entry: Entry) returns (e: Ending)
      modifies this
      ensures Ended(Execute(host, old(State()), ctx, entry), e)
      ensures e.Panicked? ==> State() == old(State())
    {
      var before := State();
      match entry {
        case External(m) => e := Transaction(host, ctx, m);
        case ChainCallback(next) => e := ContinueTheChain(host, ctx, next);
        case YieldCallback(args, signal) => e := Callback(host, ctx, args, signal);
      }
      if e.Panicked? {
        Restore(before);
      }
    }
  }
}
