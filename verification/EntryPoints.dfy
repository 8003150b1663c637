/** When each entry point of the gate commits, what it then leaves, and why it panics otherwise, in terms of the
    storage, the caller and the bytes received: which account may call what, with what deposit, in what state. */
module EntryPoints {
  import opened Types
  import opened Nep366
  import opened Nonces
  import opened GateSpec
  import opened Fees

  const MAX_U64: u64 := 18_446_744_073_709_551_615
  const MAX_U128: u128 := 340_282_366_920_938_463_463_374_607_431_768_211_455

  // ---- deployment ----

  // A new gate has the two roles it was given, the ladder below and nothing else.
  lemma Deployed(owner: AccountId, approver: AccountId)
    ensures Init(owner, approver) == GateState(
              owner := owner, approver := approver, relayers := {}, pending := map[], usedNonces := map[],
              nextIntentId := 0, submitted := 0, dispatched := 0, rejected := 0, tail := [], activeBatchId := 0,
              tiers := [Tier(cap := 3, fee := 30_000_000_000_000_000_000_000),
                        Tier(cap := 6, fee := 50_000_000_000_000_000_000_000),
                        Tier(cap := 12, fee := 60_000_000_000_000_000_000_000)],
              collected := 0, withdrawn := 0)
  {
  }

  // ---- the owner's calls ----

  predicate OwnersCall(m: Method) {
    m.AddRelayer? || m.RemoveRelayer? || m.SetApprover? || m.SetFeeTiers? || m.WithdrawFees? || m.ResetBatchTail?
  }

  lemma {:induction false} FaultKinds(tiers: seq<Tier>, prev: u32)
    ensures TierFault(tiers, prev) in {None, Some(TierCapZero), Some(TierCapsNotAscending)}
  {
    if |tiers| > 0 {
      FaultKinds(tiers[1..], tiers[0].cap);
    }
  }

  // The six calls that are the owner's are refused to everyone else, first of all.
  lemma OwnerOnlyCalls(host: Host, g: GateState, ctx: Ctx, m: Method)
    requires OwnersCall(m)
    ensures Invoke(host, g, ctx, m) == Panic(NotOwner) <==> ctx.predecessor != g.owner
  {
    if m.SetFeeTiers? {
      FaultKinds(m.tiers, 0);
    }
  }

  lemma OwnerSets(host: Host, g: GateState, ctx: Ctx, a: AccountId)
    requires ctx.predecessor == g.owner
    ensures Invoke(host, g, ctx, AddRelayer(a)) == Commit(g.(relayers := g.relayers + {a}), NoEffect)
    ensures Invoke(host, g, ctx, RemoveRelayer(a)) == Commit(g.(relayers := g.relayers - {a}), NoEffect)
    ensures Invoke(host, g, ctx, SetApprover(a)) == Commit(g.(approver := a), NoEffect)
    ensures Invoke(host, g, ctx, ResetBatchTail) == Commit(g.(tail := []), NoEffect)
  {
  }

  // The cap before `k`, counting from 0 for the first.
  function CapBefore(tiers: seq<Tier>, prev: u32, k: nat): u32
    requires k <= |tiers|
  {
    if k == 0 then prev else tiers[k - 1].cap
  }

  ghost predicate Climbs(tiers: seq<Tier>, prev: u32, k: nat)
    requires k < |tiers|
  {
    CapBefore(tiers, prev, k) < tiers[k].cap
  }

  // The fault reported is that of the first cap that does not exceed the one before it.
  lemma {:induction false} FirstFault(tiers: seq<Tier>, prev: u32, k: nat)
    requires k < |tiers| && !Climbs(tiers, prev, k) && forall j :: 0 <= j < k ==> Climbs(tiers, prev, j)
    ensures TierFault(tiers, prev) == Some(if tiers[k].cap == 0 then TierCapZero else TierCapsNotAscending)
  {
    if k > 0 {
      assert Climbs(tiers, prev, 0);
      forall j | 0 <= j < k - 1 ensures Climbs(tiers[1..], tiers[0].cap, j) {
        assert Climbs(tiers, prev, j + 1);
      }
      FirstFault(tiers[1..], tiers[0].cap, k - 1);
    }
  }

  lemma {:induction false} ClimbsAbove(tiers: seq<Tier>, j: nat, k: nat)
    requires j <= k < |tiers| && forall i :: 0 <= i < |tiers| ==> Climbs(tiers, 0, i)
    ensures 0 < tiers[k].cap && (j < k ==> tiers[j].cap < tiers[k].cap)
  {
    assert Climbs(tiers, 0, k);
    if j < k {
      ClimbsAbove(tiers, j, k - 1);
    }
  }

  lemma FirstStumble(tiers: seq<Tier>) returns (k: nat)
    requires tiers != [] && !ValidTiers(tiers)
    ensures k < |tiers| && !Climbs(tiers, 0, k) && forall j :: 0 <= j < k ==> Climbs(tiers, 0, j)
  {
    k := 0;
    while k < |tiers| && Climbs(tiers, 0, k)
      invariant k <= |tiers| && forall j :: 0 <= j < k ==> Climbs(tiers, 0, j)
    {
      k := k + 1;
    }
    if k == |tiers| {
      forall i, j | 0 <= i <= j < |tiers| ensures 0 < tiers[j].cap && (i < j ==> tiers[i].cap < tiers[j].cap) {
        ClimbsAbove(tiers, i, j);
      }
    }
  }

  // The owner's ladder is refused for being empty, for its first fault, or not at all.
  lemma SetFeeTiersExactly(host: Host, g: GateState, ctx: Ctx, tiers: seq<Tier>)
    requires ctx.predecessor == g.owner
    ensures var o := Invoke(host, g, ctx, SetFeeTiers(tiers));
            && (o == Panic(TiersEmpty) <==> tiers == [])
            && (ValidTiers(tiers) ==> o == Commit(g.(tiers := tiers), NoEffect))
            && (tiers != [] && !ValidTiers(tiers) ==>
                  exists k :: 0 <= k < |tiers| && !Climbs(tiers, 0, k)
                              && (forall j :: 0 <= j < k ==> Climbs(tiers, 0, j))
                              && o == Panic(if tiers[k].cap == 0 then TierCapZero else TierCapsNotAscending))
  {
    SetterExact(g, ctx, tiers);
    if tiers != [] && !ValidTiers(tiers) {
      var k := FirstStumble(tiers);
      FirstFault(tiers, 0, k);
    }
  }

  // The owner may take out what was collected and not yet withdrawn, to the account named, and no more.
  lemma WithdrawExactly(host: Host, g: GateState, ctx: Ctx, amount: u128, to: AccountId)
    requires ctx.predecessor == g.owner
    ensures var o := Invoke(host, g, ctx, WithdrawFees(amount, to));
            && (o.Commit? <==> amount == 0 || g.withdrawn + amount <= g.collected)
            && (o.Commit? ==> o == Commit(g.(withdrawn := g.withdrawn + amount), Transfer(to := to, amount := amount)))
            && (o.Panic? ==> o == Panic(InsufficientFeeBalance))
  {
  }

  // ---- submitting ----

  ghost predicate Spells(host: Host, input: Bytes, x: SignedDelegateAction) {
    WellTyped(host, x.delegateAction) && input == SerSigned(x)
  }

  // The embedded key has signed the hash of the discriminant and the delegate.
  predicate Signed(host: Host, x: SignedDelegateAction) {
    host.ed25519Verify(x.signature, host.sha256([0x6E, 0x01, 0x00, 0x40] + SerDelegate(x.delegateAction)),
                       x.delegateAction.publicKey)
  }

  // What `submit_intent` asks of its caller, of the storage, and of a delegate `x` that `input` spells out.
  ghost predicate Submittable(host: Host, g: GateState, ctx: Ctx, input: Bytes, x: SignedDelegateAction) {
    var d := x.delegateAction;
    && ctx.predecessor in g.relayers
    && Spells(host, input, x)
    && Signed(host, x)
    && ctx.block < d.maxBlockHeight
    && NonceKey(d.senderId, d.nonce) !in g.usedNonces
    && |d.actions| == 1
    && g.nextIntentId < MAX_U64 && g.submitted < MAX_U64
  }

  // The one call of a delegate with a single action.
  function CallOf(d: DelegateAction): Call
    requires |d.actions| == 1
  {
    var fc := d.actions[0].call;
    Call(receiver := d.receiverId, methodName := fc.methodName, args := fc.args, deposit := fc.deposit, gas := fc.gas)
  }

  function StoredEntry(d: DelegateAction, ctx: Ctx): PendingIntent
    requires |d.actions| == 1
  {
    PendingIntent(yieldId := ctx.newYieldId, sender := d.senderId, call := CallOf(d), nonce := d.nonce,
                  expiresAtBlock := d.maxBlockHeight, submittedAtBlock := ctx.block)
  }

  // The storage with the delegate's intent parked: two counters bumped, its nonce burned, its entry stored.
  function WithIntent(g: GateState, ctx: Ctx, d: DelegateAction): GateState
    requires |d.actions| == 1 && g.nextIntentId < MAX_U64 && g.submitted < MAX_U64
  {
    g.(nextIntentId := g.nextIntentId + 1, submitted := g.submitted + 1,
       usedNonces := g.usedNonces[NonceKey(d.senderId, d.nonce) := ctx.block],
       pending := g.pending[g.nextIntentId := StoredEntry(d, ctx)])
  }

  lemma ReadsBack(host: Host, input: Bytes, x: SignedDelegateAction)
    requires Spells(host, input, x)
    ensures TryFromSlice(host, input).Ok? && TryFromSlice(host, input).value == x
    ensures Verify(host, x) == Signed(host, x)
  {
    RoundTrip(host, x);
    DiscriminantBytes();
  }

  // What becomes of the delegate `d` once its caller and its bytes are accepted, `signed` being what the signature
  // check says.
  ghost predicate Answered(g: GateState, ctx: Ctx, d: DelegateAction, signed: bool, o: Outcome) {
    var timely, key := (ctx.block < d.maxBlockHeight), NonceKey(d.senderId, d.nonce);
    && (o == Panic(BadSignature) <==> !signed)
    && (o == Panic(Expired) <==> signed && !timely)
    && (o == Panic(NonceUsed) <==> signed && timely && key in g.usedNonces)
    && (o == Panic(NotSingleAction) <==> signed && timely && key !in g.usedNonces && |d.actions| != 1)
    && (o == Panic(CounterOverflow) <==>
          signed && timely && key !in g.usedNonces && |d.actions| == 1
          && (g.nextIntentId == MAX_U64 || g.submitted == MAX_U64))
    && (o.Commit? <==>
          signed && timely && key !in g.usedNonces && |d.actions| == 1
          && g.nextIntentId < MAX_U64 && g.submitted < MAX_U64)
    && (o.Commit? ==> o == Commit(WithIntent(g, ctx, d), NewYield(CallbackArgs(g.nextIntentId, CallOf(d)))))
  }

  lemma ParkAnswers(g: GateState, ctx: Ctx, d: DelegateAction)
    requires ctx.block < d.maxBlockHeight && NonceKey(d.senderId, d.nonce) !in g.usedNonces && |d.actions| == 1
    ensures Answered(g, ctx, d, true, Park(g, ctx, d, d.actions[0].call))
  {
  }

  lemma SubmitAnswers(host: Host, g: GateState, ctx: Ctx, input: Bytes, x: SignedDelegateAction, signed: bool)
    requires ctx.predecessor in g.relayers && TryFromSlice(host, input).Ok? && TryFromSlice(host, input).value == x
    requires Verify(host, x) == signed
    ensures Answered(g, ctx, x.delegateAction, signed, Submit(host, g, ctx, input))
  {
    var d := x.delegateAction;
    if signed && ctx.block < d.maxBlockHeight && NonceKey(d.senderId, d.nonce) !in g.usedNonces && |d.actions| == 1 {
      ParkAnswers(g, ctx, d);
    }
  }

  lemma Submits(host: Host, g: GateState, ctx: Ctx, m: Method, o: Outcome)
    requires m.SubmitIntent? && o == Submit(host, g, ctx, m.signedDelegate)
    ensures Invoke(host, g, ctx, m) == o
  {
  }

  lemma InvokeAnswers(host: Host, g: GateState, ctx: Ctx, input: Bytes, x: SignedDelegateAction, signed: bool)
    requires ctx.predecessor in g.relayers && TryFromSlice(host, input).Ok? && TryFromSlice(host, input).value == x
    requires Verify(host, x) == signed
    ensures Answered(g, ctx, x.delegateAction, signed, Invoke(host, g, ctx, SubmitIntent(input)))
  {
    var o := Submit(host, g, ctx, input);
    SubmitAnswers(host, g, ctx, input, x, signed);
    Submits(host, g, ctx, SubmitIntent(input), o);
  }

  // A whitelisted caller's input that spells a delegate is refused for the first check that fails, and parked when
  // none does.
  lemma SubmitsSpelled(host: Host, g: GateState, ctx: Ctx, input: Bytes, x: SignedDelegateAction)
    requires ctx.predecessor in g.relayers && Spells(host, input, x)
    ensures Answered(g, ctx, x.delegateAction, Signed(host, x), Invoke(host, g, ctx, SubmitIntent(input)))
  {
    ReadsBack(host, input, x);
    InvokeAnswers(host, g, ctx, input, x, Signed(host, x));
  }

  ghost predicate Screened(g: GateState, ctx: Ctx, parsed: bool, o: Outcome) {
    && (o == Panic(NotRelayer) <==> ctx.predecessor !in g.relayers)
    && (o.Panic? && o.reason.InvalidDelegate? <==> ctx.predecessor in g.relayers && !parsed)
  }

  lemma SubmitRejects(host: Host, g: GateState, ctx: Ctx, input: Bytes)
    ensures Screened(g, ctx, TryFromSlice(host, input).Ok?, Submit(host, g, ctx, input))
  {
    if ctx.predecessor in g.relayers && TryFromSlice(host, input).Ok? {
      var x := TryFromSlice(host, input).value;
      SubmitAnswers(host, g, ctx, input, x, Verify(host, x));
    }
  }

  lemma InvokeRejects(host: Host, g: GateState, ctx: Ctx, input: Bytes)
    ensures Screened(g, ctx, TryFromSlice(host, input).Ok?, Invoke(host, g, ctx, SubmitIntent(input)))
  {
    var o := Submit(host, g, ctx, input);
    SubmitRejects(host, g, ctx, input);
    Submits(host, g, ctx, SubmitIntent(input), o);
  }

  lemma Spelled(host: Host, input: Bytes)
    ensures TryFromSlice(host, input).Ok? <==> exists x :: Spells(host, input, x)
  {
    AcceptsExactly(host, input);
    if x: SignedDelegateAction :| WellTyped(host, x.delegateAction) && input == SerSigned(x) {
      assert Spells(host, input, x);
    }
    if x :| Spells(host, input, x) {
      assert WellTyped(host, x.delegateAction) && input == SerSigned(x);
    }
  }

  // Anyone else is refused, and so is input that spells no delegate.
  lemma SubmitRefuses(host: Host, g: GateState, ctx: Ctx, input: Bytes)
    ensures var o := Invoke(host, g, ctx, SubmitIntent(input));
            && (o == Panic(NotRelayer) <==> ctx.predecessor !in g.relayers)
            && (o.Panic? && o.reason.InvalidDelegate? <==>
                  ctx.predecessor in g.relayers && forall x :: !Spells(host, input, x))
  {
    InvokeRejects(host, g, ctx, input);
    Spelled(host, input);
  }

  // So `submit_intent` commits if and only if its caller is a relayer and its input spells a delegate that is
  // signed, unexpired, unused and of one action, while both counters have room; and then it parks exactly that.
  lemma SubmitExactly(host: Host, g: GateState, ctx: Ctx, input: Bytes)
    ensures Invoke(host, g, ctx, SubmitIntent(input)).Commit? <==> exists x :: Submittable(host, g, ctx, input, x)
    ensures forall x :: Submittable(host, g, ctx, input, x) ==>
              Invoke(host, g, ctx, SubmitIntent(input))
              == Commit(WithIntent(g, ctx, x.delegateAction),
                        NewYield(CallbackArgs(g.nextIntentId, CallOf(x.delegateAction))))
  {
    SubmitRefuses(host, g, ctx, input);
    forall x | ctx.predecessor in g.relayers && Spells(host, input, x)
      ensures Invoke(host, g, ctx, SubmitIntent(input)).Commit? <==> Submittable(host, g, ctx, input, x)
      ensures Submittable(host, g, ctx, input, x) ==>
                Invoke(host, g, ctx, SubmitIntent(input))
                == Commit(WithIntent(g, ctx, x.delegateAction),
                          NewYield(CallbackArgs(g.nextIntentId, CallOf(x.delegateAction))))
    {
      SubmitsSpelled(host, g, ctx, input, x);
    }
  }

  // ---- paying ----

  // Tier `k` is the first that covers a batch of `n`.
  ghost predicate Prices(tiers: seq<Tier>, n: u32, k: nat) {
    k < |tiers| && n <= tiers[k].cap && forall j :: 0 <= j < k ==> tiers[j].cap < n
  }

  // The attached deposit pays for a release of `n`, and the books can hold it.
  ghost predicate Pays(g: GateState, attached: u128, n: u32, k: nat) {
    Prices(g.tiers, n, k) && g.tiers[k].fee <= attached && g.collected + g.tiers[k].fee <= MAX_U128
  }

  // Under the ladder the gate is deployed with, up to 3 intents cost 0.03 NEAR, up to 6 cost 0.05, up to 12 cost 0.06,
  // and more cannot be released at once.
  lemma DefaultPrices(g: GateState, attached: u128, n: u32)
    requires g.tiers == DEFAULT_FEE_TIERS && g.collected == 0
    ensures var fee := if n <= 3 then 30_000_000_000_000_000_000_000
                       else if n <= 6 then 50_000_000_000_000_000_000_000 else 60_000_000_000_000_000_000_000;
            ChargeFee(g, attached, n)
            == if n > 12 then Panic(BatchTooBig)
               else if attached < fee then Panic(InsufficientFee)
               else Commit(g.(collected := fee), NoEffect)
  {
    var k := CoverIndex(g.tiers, n);
    assert g.tiers[0].cap == 3 && g.tiers[1].cap == 6 && g.tiers[2].cap == 12;
    assert if n <= 3 then k == 0 else if n <= 6 then k == 1 else if n <= 12 then k == 2 else k == 3;
  }

  lemma ChargedExactly(g: GateState, attached: u128, n: u32) returns (k: nat)
    ensures var o := ChargeFee(g, attached, n);
            && (o == Panic(NoTiers) <==> g.tiers == [])
            && (o == Panic(BatchTooBig) <==> g.tiers != [] && k == |g.tiers|)
            && (o == Panic(InsufficientFee) <==> Prices(g.tiers, n, k) && attached < g.tiers[k].fee)
            && (o == Panic(FeesOverflow) <==>
                  Prices(g.tiers, n, k) && g.tiers[k].fee <= attached && MAX_U128 < g.collected + g.tiers[k].fee)
            && (o.Commit? <==> Pays(g, attached, n, k))
            && (o.Commit? ==> o == Commit(g.(collected := g.collected + g.tiers[k].fee), NoEffect))
    ensures k <= |g.tiers| && forall j :: 0 <= j < k ==> g.tiers[j].cap < n
    ensures forall i :: Prices(g.tiers, n, i) <==> i == k < |g.tiers|
  {
    k := CoverIndex(g.tiers, n);
  }

  // ---- releasing ----

  // What the fee comes to when tier `k` prices it.
  function WithFee(g: GateState, k: nat): GateState
    requires k < |g.tiers| && g.collected + g.tiers[k].fee <= MAX_U128
  {
    g.(collected := g.collected + g.tiers[k].fee)
  }

  // The approver alone, whatever the decision, for the fee of one, and only while the intent waits.
  lemma ResumeExactly(host: Host, g: GateState, ctx: Ctx, id: u64, approve: bool) returns (k: nat)
    ensures forall i :: Prices(g.tiers, 1, i) <==> i == k < |g.tiers|
    ensures var o, may := Invoke(host, g, ctx, ResumeIntent(id, approve)), ctx.predecessor == g.approver;
            && (o == Panic(NotApprover) <==> !may)
            && (o == Panic(NoTiers) <==> may && g.tiers == [])
            && (o == Panic(BatchTooBig) <==> may && g.tiers != [] && k >= |g.tiers|)
            && (o == Panic(InsufficientFee) <==> may && k < |g.tiers| && ctx.attached < g.tiers[k].fee)
            && (o == Panic(FeesOverflow) <==>
                  may && k < |g.tiers| && g.tiers[k].fee <= ctx.attached && MAX_U128 < g.collected + g.tiers[k].fee)
            && (o == Panic(UnknownIntent) <==> may && Pays(g, ctx.attached, 1, k) && id !in g.pending)
            && (o == Panic(ResumeFailed) <==>
                  may && Pays(g, ctx.attached, 1, k) && id in g.pending && g.pending[id].yieldId !in ctx.waiting)
            && (o.Commit? <==>
                  may && Pays(g, ctx.attached, 1, k) && id in g.pending && g.pending[id].yieldId in ctx.waiting)
            && (o.Commit? ==>
                  o == Commit(WithFee(g, k).(pending := g.pending - {id}),
                              Resume(g.pending[id].yieldId,
                                     ResumeSignal(approve := approve, sequenceNumber := None, nextIntentId := None))))
  {
    k := ChargedExactly(g, ctx.attached, 1);
  }

  ghost predicate AllPending(g: GateState, ids: seq<u64>) {
    forall q :: 0 <= q < |ids| ==> ids[q] in g.pending
  }

  function SecondOf(ids: seq<u64>): Option<u64> {
    if |ids| > 1 then Some(ids[1]) else None
  }

  // The approver alone, for the fee of the whole batch, with no tail left over and every id pending; the first is
  // released with sequence number 0 and told which comes next, the others become the tail.
  lemma BatchExactly(host: Host, g: GateState, ctx: Ctx, ids: IdList) returns (k: nat)
    ensures forall i :: Prices(g.tiers, |ids|, i) <==> i == k < |g.tiers|
    ensures var o, may := Invoke(host, g, ctx, ResumeBatchChained(ids)),
                          ctx.predecessor == g.approver && ids != [] && g.tail == [];
            && (o == Panic(NotApprover) <==> ctx.predecessor != g.approver)
            && (o == Panic(BatchEmpty) <==> ctx.predecessor == g.approver && ids == [])
            && (o == Panic(BatchInFlight) <==> ctx.predecessor == g.approver && ids != [] && g.tail != [])
            && (o == Panic(NoTiers) <==> may && g.tiers == [])
            && (o == Panic(BatchTooBig) <==> may && g.tiers != [] && k >= |g.tiers|)
            && (o == Panic(InsufficientFee) <==> may && k < |g.tiers| && ctx.attached < g.tiers[k].fee)
            && (o == Panic(FeesOverflow) <==>
                  may && k < |g.tiers| && g.tiers[k].fee <= ctx.attached && MAX_U128 < g.collected + g.tiers[k].fee)
            && (o == Panic(UnknownIntent) <==> may && Pays(g, ctx.attached, |ids|, k) && !AllPending(g, ids))
            && (o == Panic(CounterOverflow) <==>
                  may && Pays(g, ctx.attached, |ids|, k) && AllPending(g, ids) && g.activeBatchId == MAX_U64)
            && (o == Panic(ResumeFailed) <==>
                  may && Pays(g, ctx.attached, |ids|, k) && AllPending(g, ids) && g.activeBatchId < MAX_U64
                  && g.pending[ids[0]].yieldId !in ctx.waiting)
            && (o.Commit? <==>
                  may && Pays(g, ctx.attached, |ids|, k) && AllPending(g, ids) && g.activeBatchId < MAX_U64
                  && g.pending[ids[0]].yieldId in ctx.waiting)
            && (o.Commit? ==>
                  o == Commit(WithFee(g, k).(activeBatchId := g.activeBatchId + 1, tail := ids[1..],
                                             pending := g.pending - {ids[0]}),
                              Resume(g.pending[ids[0]].yieldId,
                                     ResumeSignal(approve := true, sequenceNumber := Some(0),
                                                  nextIntentId := SecondOf(ids)))))
  {
    k := ChargedExactly(g, ctx.attached, |ids|);
  }

  // ---- the chain ----

  // Only the gate itself, only when the tail's head is the intent named; that intent is released under the number
  // named and told which comes next.
  lemma ContinueExactly(host: Host, g: GateState, ctx: Ctx, next: Then)
    ensures var o, id := Execute(host, g, ctx, ChainCallback(next)), next.nextId;
            var own, head := ctx.predecessor == host.currentAccount, g.tail != [] && g.tail[0] == id;
            && (o == Panic(PrivateMethod) <==> !own)
            && (o == Panic(TailEmpty) <==> own && g.tail == [])
            && (o == Panic(TailMismatch) <==> own && g.tail != [] && g.tail[0] != id)
            && (o == Panic(UnknownIntent) <==> own && head && id !in g.pending)
            && (o == Panic(ResumeFailed) <==> own && head && id in g.pending && g.pending[id].yieldId !in ctx.waiting)
            && (o.Commit? <==> own && head && id in g.pending && g.pending[id].yieldId in ctx.waiting)
            && (o.Commit? ==>
                  o == Commit(g.(tail := g.tail[1..], pending := g.pending - {id}),
                              Resume(g.pending[id].yieldId,
                                     ResumeSignal(approve := true, sequenceNumber := Some(next.nextSeq),
                                                  nextIntentId := SecondOf(g.tail)))))
  {
  }

  // The sequence number the next intent of the chain is to get.
  function Following(signal: ResumeSignal): nat {
    if signal.sequenceNumber.Some? then signal.sequenceNumber.value + 1 else 1
  }

  predicate Denied(signal: Option<ResumeSignal>) { signal.None? || !signal.value.approve }

  function ChainedTo(signal: ResumeSignal): Option<Then>
    requires signal.nextIntentId.Some? ==> Following(signal) < U32_LIMIT
  {
    if signal.nextIntentId.Some? then Some(Then(nextId := signal.nextIntentId.value, nextSeq := Following(signal)))
    else None
  }

  // Only the gate itself. A timeout or a denial is counted as rejected. An approval dispatches the call baked into
  // the yield and chains the next intent, if the signal names one, under the next sequence number. Nothing else
  // panics but a counter.
  lemma CallbackExactly(host: Host, g: GateState, ctx: Ctx, args: CallbackArgs, signal: Option<ResumeSignal>)
    ensures var o, own := Execute(host, g, ctx, YieldCallback(args, signal)), ctx.predecessor == host.currentAccount;
            var room := if Denied(signal) then g.rejected < MAX_U64
                        else g.dispatched < MAX_U64
                             && (signal.value.nextIntentId.Some? ==> Following(signal.value) <= 4_294_967_295);
            && (o == Panic(PrivateMethod) <==> !own)
            && (o == Panic(CounterOverflow) <==> own && !room)
            && (o.Commit? <==> own && room)
            && (o.Commit? && Denied(signal) ==>
                  o == Commit(g.(pending := g.pending - {args.intentId}, rejected := g.rejected + 1), NoEffect))
            && (o.Commit? && !Denied(signal) ==>
                  o == Commit(g.(pending := g.pending - {args.intentId}, dispatched := g.dispatched + 1),
                              Dispatch(call := args.call, chained := ChainedTo(signal.value))))
  {
  }

  // ---- the gate's call to itself ----

  const CONTINUE_CHAIN_NAME := "continue_chain"

  // Which calls reach the gate's own continue_chain: addressed to the gate, by that name, without a deposit, and with
  // arguments that the method reads; it then runs with the id and the number they hold.
  lemma SelfChainExactly(host: Host, call: Call)
    ensures var named := |call.methodName| == 14
                         && forall k :: 0 <= k < 14 ==> call.methodName[k] == CONTINUE_CHAIN_NAME[k] as int;
            SelfChain(host, call)
            == if call.receiver == host.currentAccount && named && call.deposit == 0 && host.chainArgs(call.args).Some?
               then Some(Then(nextId := host.chainArgs(call.args).value.0,
                              nextSeq := host.chainArgs(call.args).value.1))
               else None
  {
    assert |CONTINUE_CHAIN_NAME| == 14 == |CONTINUE_CHAIN|;
    assert forall k :: 0 <= k < 14 ==> CONTINUE_CHAIN[k] == CONTINUE_CHAIN_NAME[k] as int;
    if |call.methodName| == 14 && forall k :: 0 <= k < 14 ==> call.methodName[k] == CONTINUE_CHAIN_NAME[k] as int {
      assert call.methodName == CONTINUE_CHAIN;
    }
  }
}
