/** From the approver's permutation to the log of the target: the client's check, run against the state the
    gate's receipts leave the target in. */
module EndToEnd {
  import opened Types
  import opened Nep366
  import opened GateSpec
  import opened Runtime
  import opened Ledger
  import opened Discipline
  import opened Chain
  import opened Batch
  import opened Completion
  import opened Integrity
  import EntryPoints
  import opened Sequence
  import opened Oracle
  import R = Register
  import F = FtShim

  // ---- the calls a target sees ----

  function CallsTo(r: seq<Ran>, account: AccountId): seq<Ran> {
    if |r| == 0 then [] else
    var front, last := CallsTo(r[..|r| - 1], account), r[|r| - 1];
    if last.call.receiver == account then front + [last] else front
  }

  // What reached `account` on the way from `w` to `w'`.
  function Reached(w: World, w': World, account: AccountId): seq<Ran> { CallsTo(Since(w, w'), account) }

  lemma {:induction false} CallsToAccount(r: seq<Ran>, account: AccountId, q: nat)
    requires q < |CallsTo(r, account)|
    ensures CallsTo(r, account)[q] in r && CallsTo(r, account)[q].call.receiver == account
  {
    if q < |CallsTo(r[..|r| - 1], account)| {
      CallsToAccount(r[..|r| - 1], account, q);
    }
  }

  lemma {:induction false} EvolveReached<S>(host: Host, t: Target<S>, account: AccountId, s: S, r: seq<Ran>)
    ensures Evolve(host, t, account, s, r) == Evolve(host, t, account, s, CallsTo(r, account))
  {
    if |r| > 0 {
      var front := r[..|r| - 1];
      EvolveReached(host, t, account, s, front);
      if r[|r| - 1].call.receiver == account {
        assert CallsTo(r, account)[..|CallsTo(front, account)|] == CallsTo(front, account);
      }
    }
  }

  // A target's state evolves by the calls that reached it.
  lemma EvolvesSince<S>(host: Host, t: Target<S>, account: AccountId, s: S, w: World, w': World)
    requires w.ran <= w'.ran
    ensures Evolve(host, t, account, s, w'.ran)
         == Evolve(host, t, account, Evolve(host, t, account, s, w.ran), Reached(w, w', account))
  {
    assert w'.ran == w.ran + Since(w, w');
    EvolveConcat(host, t, account, s, w.ran, Since(w, w'));
    EvolveReached(host, t, account, Evolve(host, t, account, s, w.ran), Since(w, w'));
  }

  // No two calls of different intents that reached the target stem from one intent.
  lemma {:induction false} ReachedApart(r: seq<Ran>, account: AccountId, j: nat, k: nat)
    requires forall a, b :: 0 <= a < b < |r| && r[a].origin.FromGate? && r[b].origin.FromGate? ==>
               r[a].origin.id != r[b].origin.id
    requires j < k < |CallsTo(r, account)|
    requires CallsTo(r, account)[j].origin.FromGate? && CallsTo(r, account)[k].origin.FromGate?
    ensures CallsTo(r, account)[j].origin.id != CallsTo(r, account)[k].origin.id
  {
    var front := r[..|r| - 1];
    if k < |CallsTo(front, account)| {
      ReachedApart(front, account, j, k);
    } else {
      CallsToAccount(front, account, j);
    }
  }

  // ---- the client's plan ----

  ghost predicate PlannedAs(w: World, account: AccountId, id: u64, i: nat, wanted: (nat, Call) -> bool) {
    && id < |w.intents|
    && w.intents[id].args.call.receiver == account
    && wanted(i, w.intents[id].args.call)
  }

  // The ids of the submissions, in the order they were made, each parked with the call it should make.
  ghost predicate Planned(w: World, account: AccountId, submitted: seq<u64>, wanted: (nat, Call) -> bool) {
    && 0 < |submitted| < U32_LIMIT
    && (forall j, k :: 0 <= j < k < |submitted| ==> submitted[j] != submitted[k])
    && forall i :: 0 <= i < |submitted| ==> PlannedAs(w, account, submitted[i], i, wanted)
  }

  // Exactly as many calls as were planned reached the target, all of them from planned intents.
  ghost predicate OnlyPlanned(reached: seq<Ran>, submitted: seq<u64>) {
    && |reached| == |submitted|
    && forall q :: 0 <= q < |reached| ==> reached[q].origin.FromGate? && reached[q].origin.id in submitted
  }

  // The planned calls reached the target in the order `order` asks for.
  ghost predicate InPlannedOrder(reached: seq<Ran>, submitted: seq<u64>, order: seq<int>)
    requires OnlyPlanned(reached, submitted) && IsPermutation(order, |submitted|)
  {
    forall q :: 0 <= q < |submitted| ==> reached[q].origin.id == BatchIds(order, submitted)[q]
  }

  // The order in which planned calls did reach the target.
  lemma {:induction false} OrderOfCalls(reached: seq<Ran>, submitted: seq<u64>) returns (ran: seq<int>)
    requires forall q :: 0 <= q < |reached| ==> reached[q].origin.FromGate? && reached[q].origin.id in submitted
    ensures |ran| == |reached|
    ensures forall q :: 0 <= q < |ran| ==> 0 <= ran[q] < |submitted| && submitted[ran[q]] == reached[q].origin.id
  {
    ran := [];
    if |reached| > 0 {
      var front := OrderOfCalls(reached[..|reached| - 1], submitted);
      var last := reached[|reached| - 1];
      assert last.origin.id in submitted;
      var i :| 0 <= i < |submitted| && submitted[i] == last.origin.id;
      ran := front + [i];
    }
  }

  lemma SameOrder(reached: seq<Ran>, submitted: seq<u64>, ran: seq<int>, order: seq<int>)
    requires OnlyPlanned(reached, submitted) && IsPermutation(order, |submitted|) && |ran| == |submitted|
    requires forall j, k :: 0 <= j < k < |submitted| ==> submitted[j] != submitted[k]
    requires forall q :: 0 <= q < |ran| ==> 0 <= ran[q] < |submitted| && submitted[ran[q]] == reached[q].origin.id
    ensures InPlannedOrder(reached, submitted, order) <==> ran == order
  {
    if InPlannedOrder(reached, submitted, order) {
      forall q | 0 <= q < |ran| ensures ran[q] == order[q] {
        assert submitted[ran[q]] == submitted[order[q]];
      }
    }
  }

  lemma RanFrom(w: World, w': World, x: Ran)
    requires w.ran <= w'.ran && RanOk(w') && x in Since(w, w') && x.origin.FromGate?
    ensures x.origin.id < |w'.intents| && x.call == w'.intents[x.origin.id].args.call
  {
    var j :| 0 <= j < |Since(w, w')| && Since(w, w')[j] == x;
    assert w'.ran[|w.ran| + j] == x;
  }

  lemma ReachedDistinct(w: World, w': World, account: AccountId, submitted: seq<u64>, ran: seq<int>)
    requires w.ran <= w'.ran && RanOnce(w') && OnlyPlanned(Reached(w, w', account), submitted) && |ran| == |submitted|
    requires forall q :: 0 <= q < |ran| ==>
               0 <= ran[q] < |submitted| && submitted[ran[q]] == Reached(w, w', account)[q].origin.id
    ensures IsPermutation(ran, |submitted|)
  {
    forall j, k | 0 <= j < k < |ran| ensures ran[j] != ran[k] {
      ReachedApart(Since(w, w'), account, j, k);
    }
  }

  // Each planned call that reached the target is the one its intent was parked with.
  lemma ReachedAsPlanned(host: Host, ws: seq<World>, steps: seq<Step>, m: nat, k: nat, account: AccountId,
                         submitted: seq<u64>, wanted: (nat, Call) -> bool) returns (ran: seq<int>)
    requires GateRun(host, ws, steps) && m <= k < |ws| && Planned(ws[k], account, submitted, wanted)
    requires OnlyPlanned(Reached(ws[m], ws[k], account), submitted)
    ensures ws[m].ran <= ws[k].ran && IsPermutation(ran, |submitted|)
    ensures var reached := Reached(ws[m], ws[k], account);
            forall q :: 0 <= q < |ran| ==>
              && submitted[ran[q]] == reached[q].origin.id
              && reached[q].call.receiver == account && wanted(ran[q], reached[q].call)
  {
    var reached := Reached(ws[m], ws[k], account);
    RunIsWalk(host, ws, steps);
    WalkGrows(ws, Kinds(host, ws, steps), m, k);
    RanAlways(host, ws, steps, k);
    ExecutedOnce(host, ws, steps, k);
    ran := OrderOfCalls(reached, submitted);
    ReachedDistinct(ws[m], ws[k], account, submitted, ran);
    forall q | 0 <= q < |ran| ensures reached[q].call.receiver == account && wanted(ran[q], reached[q].call) {
      CallsToAccount(Since(ws[m], ws[k]), account, q);
      RanFrom(ws[m], ws[k], reached[q]);
    }
  }

  // ---- the targets as the gate sees them ----

  // `decode` stands for the target's own reading of a call's method name and arguments.
  function RegisterTarget(decode: Call -> Option<R.RegisterCall>): Target<R.RegisterState> {
    (r: R.RegisterState, caller: AccountId, call: Call) =>
      match decode(call) case Some(c) => R.After(r, c) case None => None
  }

  function ShimTarget(decode: Call -> Option<(AccountId, u128)>): Target<F.ShimState> {
    (s: F.ShimState, caller: AccountId, call: Call) =>
      match decode(call)
      case Some(p) => (match F.Transfer(s, caller, p.0, p.1) case Ok(s') => Some(s') case Fail(_) => None)
      case None => None
  }

  function WantsSet(decode: Call -> Option<R.RegisterCall>): (nat, Call) -> bool {
    (i: nat, call: Call) => i < U32_LIMIT && decode(call) == Some(R.Set(ValueOf(i)))
  }

  function WantsTransfer(decode: Call -> Option<(AccountId, u128)>, alice: AccountId): (nat, Call) -> bool {
    (i: nat, call: Call) => i < U32_LIMIT && decode(call) == Some((alice, AmountOf(i)))
  }

  lemma {:induction false} RegisterConsistent(host: Host, decode: Call -> Option<R.RegisterCall>, account: AccountId,
                                              r: R.RegisterState, calls: seq<Ran>)
    requires R.Consistent(r)
    ensures R.Consistent(Evolve(host, RegisterTarget(decode), account, r, calls))
  {
    if |calls| > 0 {
      var x := calls[|calls| - 1];
      RegisterConsistent(host, decode, account, r, calls[..|calls| - 1]);
      if x.call.receiver == account && decode(x.call).Some? {
        R.AfterConsistent(Evolve(host, RegisterTarget(decode), account, r, calls[..|calls| - 1]), decode(x.call).value);
      }
    }
  }

  lemma {:induction false} RegisterWrites(host: Host, decode: Call -> Option<R.RegisterCall>, account: AccountId,
                                          r: R.RegisterState, reached: seq<Ran>, ran: seq<int>)
    requires |ran| == |reached| && Small(ran)
    requires forall q :: 0 <= q < |ran| ==>
               reached[q].call.receiver == account && WantsSet(decode)(ran[q], reached[q].call)
    ensures Evolve(host, RegisterTarget(decode), account, r, reached) == R.Sets(r, Writes(ran))
  {
    if |ran| > 0 {
      var n := |ran| - 1;
      RegisterWrites(host, decode, account, r, reached[..n], ran[..n]);
      assert Writes(ran)[..n] == Writes(ran[..n]);
    }
  }

  lemma {:induction false} ShimPays(host: Host, decode: Call -> Option<(AccountId, u128)>, account: AccountId,
                                    alice: AccountId, s: F.ShimState, reached: seq<Ran>, ran: seq<int>)
    requires |ran| == |reached| && Small(ran)
    requires forall q :: 0 <= q < |ran| ==> reached[q].origin.FromGate?
    requires forall q :: 0 <= q < |ran| ==>
               reached[q].call.receiver == account && WantsTransfer(decode, alice)(ran[q], reached[q].call)
    ensures Evolve(host, ShimTarget(decode), account, s, reached) == Pay(s, host.currentAccount, alice, Payments(ran))
  {
    if |ran| > 0 {
      var n := |ran| - 1;
      ShimPays(host, decode, account, alice, s, reached[..n], ran[..n]);
      assert Payments(ran)[..n] == Payments(ran[..n]);
    }
  }

  lemma {:induction false} ShimConserves(host: Host, decode: Call -> Option<(AccountId, u128)>, account: AccountId,
                                         s: F.ShimState, calls: seq<Ran>)
    requires F.Conserves(s)
    ensures F.Conserves(Evolve(host, ShimTarget(decode), account, s, calls))
  {
    if |calls| > 0 {
      var x := calls[|calls| - 1];
      ShimConserves(host, decode, account, s, calls[..|calls| - 1]);
      var mid := Evolve(host, ShimTarget(decode), account, s, calls[..|calls| - 1]);
      if x.call.receiver == account && decode(x.call).Some? {
        var caller := if x.origin.FromGate? then host.currentAccount else x.origin.account;
        var p := decode(x.call).value;
        if F.Transfer(mid, caller, p.0, p.1).Ok? {
          F.TransferConserves(mid, caller, p.0, p.1);
        }
      }
    }
  }

  // ---- the check is sound and complete ----

  // In any run, safe or not: once exactly the planned calls have reached the register, in whatever
  // order, the client's check says MATCH if and only if they did so in the approver's order, provided the
  // register could still count them.
  lemma RegisterOracle(host: Host, ws: seq<World>, steps: seq<Step>, m: nat, k: nat, account: AccountId,
                       decode: Call -> Option<R.RegisterCall>, r: R.RegisterState, submitted: seq<u64>, order: seq<int>)
    requires GateRun(host, ws, steps) && m <= k < |ws| && R.Consistent(r)
    requires Planned(ws[k], account, submitted, WantsSet(decode)) && IsPermutation(order, |submitted|)
    requires OnlyPlanned(Reached(ws[m], ws[k], account), submitted)
    requires |Evolve(host, RegisterTarget(decode), account, r, ws[m].ran).log| + |submitted| < U32_LIMIT
    ensures RegisterMatch(Evolve(host, RegisterTarget(decode), account, r, ws[k].ran), order)
       <==> InPlannedOrder(Reached(ws[m], ws[k], account), submitted, order)
    ensures InPlannedOrder(Reached(ws[m], ws[k], account), submitted, order) ==>
              Evolve(host, RegisterTarget(decode), account, r, ws[k].ran)
                == R.Sets(Evolve(host, RegisterTarget(decode), account, r, ws[m].ran), Writes(order))
  {
    var t, reached := RegisterTarget(decode), Reached(ws[m], ws[k], account);
    var ran := ReachedAsPlanned(host, ws, steps, m, k, account, submitted, WantsSet(decode));
    EvolvesSince(host, t, account, r, ws[m], ws[k]);
    RegisterConsistent(host, decode, account, r, ws[m].ran);
    RegisterWrites(host, decode, account, Evolve(host, t, account, r, ws[m].ran), reached, ran);
    RegisterRoomSuffices(Evolve(host, t, account, r, ws[m].ran), ran, order);
    SameOrder(reached, submitted, ran, order);
  }

  // The same for the shim, provided the gate's balance there covered all the amounts.
  lemma ShimOracle(host: Host, ws: seq<World>, steps: seq<Step>, m: nat, k: nat, account: AccountId, alice: AccountId,
                   decode: Call -> Option<(AccountId, u128)>, s: F.ShimState, submitted: seq<u64>, order: seq<int>)
    requires GateRun(host, ws, steps) && m <= k < |ws| && F.Conserves(s) && host.currentAccount != alice
    requires Planned(ws[k], account, submitted, WantsTransfer(decode, alice)) && IsPermutation(order, |submitted|)
    requires OnlyPlanned(Reached(ws[m], ws[k], account), submitted)
    requires SumOf(AmountsFor(Identity(|submitted|)))
          <= F.BalanceOf(Evolve(host, ShimTarget(decode), account, s, ws[m].ran), host.currentAccount)
    ensures ShimMatch(Evolve(host, ShimTarget(decode), account, s, ws[k].ran), order)
       <==> InPlannedOrder(Reached(ws[m], ws[k], account), submitted, order)
    ensures F.Conserves(Evolve(host, ShimTarget(decode), account, s, ws[m].ran))
    ensures InPlannedOrder(Reached(ws[m], ws[k], account), submitted, order) ==>
              Evolve(host, ShimTarget(decode), account, s, ws[k].ran)
                == Pay(Evolve(host, ShimTarget(decode), account, s, ws[m].ran), host.currentAccount, alice,
                       Payments(order))
  {
    var t, reached := ShimTarget(decode), Reached(ws[m], ws[k], account);
    var ran := ReachedAsPlanned(host, ws, steps, m, k, account, submitted, WantsTransfer(decode, alice));
    EvolvesSince(host, t, account, s, ws[m], ws[k]);
    ShimConserves(host, decode, account, s, ws[m].ran);
    ShimPays(host, decode, account, alice, Evolve(host, t, account, s, ws[m].ran), reached, ran);
    SameTotal(ran, |submitted|);
    ShimFundsSuffice(Evolve(host, t, account, s, ws[m].ran), host.currentAccount, alice, ran, order);
    SameOrder(reached, submitted, ran, order);
  }

  // ---- a completed batch matches ----

  lemma {:induction false} InRanIn(r: seq<Ran>, j: nat)
    requires j < |r| && r[j].origin.FromGate?
    ensures r[j] in RanIn(r, r[j].origin.batch)
  {
    if j < |r| - 1 {
      InRanIn(r[..|r| - 1], j);
    }
  }

  // When a target sees all calls of a batch and no others, what it sees is what the batch ran.
  lemma {:induction false} SeesBatch(r: seq<Ran>, account: AccountId, b: nat)
    requires forall j :: 0 <= j < |r| ==>
               (r[j].call.receiver == account <==> r[j].origin.FromGate? && r[j].origin.batch == b)
    ensures CallsTo(r, account) == RanIn(r, b)
  {
    if |r| > 0 {
      SeesBatch(r[..|r| - 1], account, b);
    }
  }

  // Nothing but the chain took the intents of batch `b`, none of it is in flight, and `account` was called by
  // nothing but the batch.
  ghost predicate Completed(w: World, w': World, ids: seq<u64>, account: AccountId) {
    var b := |w.batches| + 1;
    && !InFlight(w', b)
    && (forall q :: 0 <= q < |ids| ==> ids[q] < |w'.intents| && LeftToChain(w'.intents[ids[q]].phase, b)
                                       && w'.intents[ids[q]].args.call.receiver == account)
    && OnlyBatchCalls(w, w', account, b)
  }

  lemma BatchReached(w: World, w': World, ids: seq<u64>, account: AccountId)
    requires Good(w) && Good(w') && Grows(w, w') && Completed(w, w', ids, account) && Distinct(ids)
    requires |w.batches| + 1 <= |w'.batches| && OrderOf(w', |w.batches| + 1) == ids
    ensures |Reached(w, w', account)| == |ids|
    ensures forall q :: 0 <= q < |ids| ==> Reached(w, w', account)[q].origin == FromGate(ids[q], |w.batches| + 1)
  {
    var b, more := |w.batches| + 1, Since(w, w');
    CompletesExactlyWhen(w', b);
    RanIsPlan(w, w', b);
    forall j | 0 <= j < |more|
      ensures more[j].call.receiver == account <==> more[j].origin.FromGate? && more[j].origin.batch == b
    {
      assert more[j] in more;
      if more[j].origin.FromGate? && more[j].origin.batch == b {
        InRanIn(more, j);
      }
    }
    SeesBatch(more, account, b);
  }

  lemma BatchReachedOnRun(host: Host, ws: seq<World>, steps: seq<Step>, m: nat, k: nat, ids: seq<u64>,
                          account: AccountId)
    requires GateRun(host, ws, steps) && SafeRun(host, ws, steps)
    requires m < k < |ws| && Kinds(host, ws, steps)[m] == Start(ids) && Distinct(ids)
    requires Completed(ws[m], ws[k], ids, account)
    ensures |Reached(ws[m], ws[k], account)| == |ids|
    ensures forall q :: 0 <= q < |ids| ==>
              Reached(ws[m], ws[k], account)[q].origin == FromGate(ids[q], |ws[m].batches| + 1)
  {
    RunIsSafeWalk(host, ws, steps);
    BatchSpan(ws, Kinds(host, ws, steps), m, k, ids);
    BatchReached(ws[m], ws[k], ids, account);
  }

  lemma BatchInOrder(host: Host, ws: seq<World>, steps: seq<Step>, m: nat, k: nat, account: AccountId,
                     submitted: seq<u64>, order: seq<int>, wanted: (nat, Call) -> bool)
    requires GateRun(host, ws, steps) && SafeRun(host, ws, steps) && IsPermutation(order, |submitted|)
    requires m < k < |ws| && Kinds(host, ws, steps)[m] == Start(BatchIds(order, submitted))
    requires Planned(ws[k], account, submitted, wanted) && Completed(ws[m], ws[k], BatchIds(order, submitted), account)
    ensures OnlyPlanned(Reached(ws[m], ws[k], account), submitted)
    ensures InPlannedOrder(Reached(ws[m], ws[k], account), submitted, order)
  {
    BatchIsEachOnce(order, submitted);
    BatchReachedOnRun(host, ws, steps, m, k, BatchIds(order, submitted), account);
  }

  // A batch built from a permutation of the submissions, completed, with no other caller of the target: the
  // client's check says MATCH, and the register has counted and logged exactly these writes.
  lemma RegisterBatchMatches(host: Host, ws: seq<World>, steps: seq<Step>, m: nat, k: nat, account: AccountId,
                             decode: Call -> Option<R.RegisterCall>, r: R.RegisterState,
                             submitted: seq<u64>, order: seq<int>)
    requires GateRun(host, ws, steps) && SafeRun(host, ws, steps) && R.Consistent(r)
    requires m < k < |ws| && Planned(ws[k], account, submitted, WantsSet(decode)) && IsPermutation(order, |submitted|)
    requires Kinds(host, ws, steps)[m] == Start(BatchIds(order, submitted))
    requires Completed(ws[m], ws[k], BatchIds(order, submitted), account)
    requires |Evolve(host, RegisterTarget(decode), account, r, ws[m].ran).log| + |submitted| < U32_LIMIT
    ensures var before, after := Evolve(host, RegisterTarget(decode), account, r, ws[m].ran),
                                 Evolve(host, RegisterTarget(decode), account, r, ws[k].ran);
            && RegisterMatch(after, order)
            && after.setCount == before.setCount + |submitted| && after.log == before.log + Writes(order)
  {
    BatchInOrder(host, ws, steps, m, k, account, submitted, order, WantsSet(decode));
    RegisterOracle(host, ws, steps, m, k, account, decode, r, submitted, order);
    RegisterConsistent(host, decode, account, r, ws[m].ran);
    R.SetsAppend(Evolve(host, RegisterTarget(decode), account, r, ws[m].ran), Writes(order));
  }

  // On the shim, the receiver has gained and the gate has paid exactly the sum of the amounts.
  lemma ShimBatchMatches(host: Host, ws: seq<World>, steps: seq<Step>, m: nat, k: nat, account: AccountId,
                         alice: AccountId, decode: Call -> Option<(AccountId, u128)>, s: F.ShimState,
                         submitted: seq<u64>, order: seq<int>)
    requires GateRun(host, ws, steps) && SafeRun(host, ws, steps)
    requires F.Conserves(s) && host.currentAccount != alice
    requires m < k < |ws| && Planned(ws[k], account, submitted, WantsTransfer(decode, alice))
    requires IsPermutation(order, |submitted|)
    requires Kinds(host, ws, steps)[m] == Start(BatchIds(order, submitted))
    requires Completed(ws[m], ws[k], BatchIds(order, submitted), account)
    requires SumOf(AmountsFor(Identity(|submitted|)))
          <= F.BalanceOf(Evolve(host, ShimTarget(decode), account, s, ws[m].ran), host.currentAccount)
    ensures var before, after := Evolve(host, ShimTarget(decode), account, s, ws[m].ran),
                                 Evolve(host, ShimTarget(decode), account, s, ws[k].ran);
            var total := SumOf(AmountsFor(Identity(|submitted|)));
            && ShimMatch(after, order) && Amounts(after.log) == Amounts(before.log) + Payments(order)
            && F.BalanceOf(after, alice) == F.BalanceOf(before, alice) + total
            && F.BalanceOf(after, host.currentAccount) == F.BalanceOf(before, host.currentAccount) - total
  {
    BatchInOrder(host, ws, steps, m, k, account, submitted, order, WantsTransfer(decode, alice));
    ShimOracle(host, ws, steps, m, k, account, alice, decode, s, submitted, order);
    PaysTotal(Evolve(host, ShimTarget(decode), account, s, ws[m].ran), host.currentAccount, alice, order, |submitted|);
  }

  // ---- from the signed submissions ----

  // Step `s` is an accepted submission of a delegate that calls `account` as `wanted` for index `i`.
  ghost predicate SubmitsFor(host: Host, w: World, s: Step, account: AccountId, i: nat, wanted: (nat, Call) -> bool) {
    && Enabled(w, s) && KindOf(host, w, s).Parking?
    && TryFromSlice(host, s.event.call.signedDelegate).Ok?
    && var d := DelegateOf(host, s.event.call.signedDelegate);
    && |d.actions| == 1 && d.receiverId == account && wanted(i, EntryPoints.CallOf(d))
  }

  lemma SubmissionPlanned(host: Host, ws: seq<World>, steps: seq<Step>, j: nat, k: nat, account: AccountId,
                          i: nat, wanted: (nat, Call) -> bool)
    requires GateRun(host, ws, steps) && j < k < |ws| && SubmitsFor(host, ws[j], steps[j], account, i, wanted)
    ensures |ws[j].intents| == ws[j].gate.nextIntentId < |ws[k].intents|
    ensures PlannedAs(ws[k], account, ws[j].gate.nextIntentId, i, wanted)
  {
    RunIsWalk(host, ws, steps);
    WalkGrows(ws, Kinds(host, ws, steps), j + 1, k);
    AcceptedAuthorises(host, ws[j], steps[j]);
  }

  // The steps `at` are accepted submissions, in order and before step `m`, of delegates that make the wanted calls.
  ghost predicate SubmittedInOrder(host: Host, ws: seq<World>, steps: seq<Step>, at: seq<nat>, m: nat,
                                   account: AccountId, wanted: (nat, Call) -> bool)
    requires m <= |steps| <= |ws|
  {
    && 0 < |at| < U32_LIMIT
    && (forall i :: 0 <= i < |at| ==> at[i] < m && SubmitsFor(host, ws[at[i]], steps[at[i]], account, i, wanted))
    && (forall i, j :: 0 <= i < j < |at| ==> at[i] < at[j])
  }

  // `ids` lists the intents of those submissions in the given order.
  ghost predicate OrderedIds(ws: seq<World>, at: seq<nat>, order: seq<int>, ids: seq<u64>)
    requires IsPermutation(order, |at|) && forall i :: 0 <= i < |at| ==> at[i] < |ws|
  {
    |ids| == |at| && forall q :: 0 <= q < |ids| ==> ids[q] == ws[at[order[q]]].gate.nextIntentId
  }

  // The ids of such submissions are a plan for every world after them.
  lemma SubmissionsPlan(host: Host, ws: seq<World>, steps: seq<Step>, at: seq<nat>, k: nat, account: AccountId,
                        wanted: (nat, Call) -> bool) returns (submitted: seq<u64>)
    requires GateRun(host, ws, steps) && k < |ws| && SubmittedInOrder(host, ws, steps, at, k, account, wanted)
    ensures |submitted| == |at| && forall i :: 0 <= i < |at| ==> submitted[i] == ws[at[i]].gate.nextIntentId
    ensures Planned(ws[k], account, submitted, wanted)
  {
    submitted := seq(|at|, i requires 0 <= i < |at| => ws[at[i]].gate.nextIntentId);
    forall i | 0 <= i < |at| ensures PlannedAs(ws[k], account, submitted[i], i, wanted) {
      SubmissionPlanned(host, ws, steps, at[i], k, account, i, wanted);
    }
    forall i, j | 0 <= i < j < |at| ensures submitted[i] != submitted[j] {
      SubmissionPlanned(host, ws, steps, at[i], at[j], account, i, wanted);
      SubmissionPlanned(host, ws, steps, at[j], k, account, j, wanted);
    }
  }

  // The sequence command, end to end: signed delegates that write the planned values are accepted in index
  // order, a batch built from the permutation is started and runs to its end, and nobody else calls the
  // register in the meantime. Then its log grows by the planned values in the permutation's order.
  lemma SequenceCommandMatches(host: Host, ws: seq<World>, steps: seq<Step>, at: seq<nat>, m: nat, k: nat,
                               account: AccountId, decode: Call -> Option<R.RegisterCall>, r: R.RegisterState,
                               order: seq<int>, ids: seq<u64>)
    requires GateRun(host, ws, steps) && SafeRun(host, ws, steps) && R.Consistent(r)
    requires m < k < |ws| && IsPermutation(order, |at|)
    requires SubmittedInOrder(host, ws, steps, at, m, account, WantsSet(decode)) && OrderedIds(ws, at, order, ids)
    requires Kinds(host, ws, steps)[m] == Start(ids) && Completed(ws[m], ws[k], ids, account)
    requires |Evolve(host, RegisterTarget(decode), account, r, ws[m].ran).log| + |ids| < U32_LIMIT
    ensures var before, after := Evolve(host, RegisterTarget(decode), account, r, ws[m].ran),
                                 Evolve(host, RegisterTarget(decode), account, r, ws[k].ran);
            RegisterMatch(after, order) && after.log == before.log + Writes(order)
  {
    var submitted := SubmissionsPlan(host, ws, steps, at, k, account, WantsSet(decode));
    assert ids == BatchIds(order, submitted);
    RegisterBatchMatches(host, ws, steps, m, k, account, decode, r, submitted, order);
  }

  // The same for the shim: its log grows by the planned amounts in the permutation's order.
  lemma SequenceCommandMatchesShim(host: Host, ws: seq<World>, steps: seq<Step>, at: seq<nat>, m: nat, k: nat,
                                   account: AccountId, alice: AccountId, decode: Call -> Option<(AccountId, u128)>,
                                   s: F.ShimState, order: seq<int>, ids: seq<u64>)
    requires GateRun(host, ws, steps) && SafeRun(host, ws, steps) && F.Conserves(s) && host.currentAccount != alice
    requires m < k < |ws| && IsPermutation(order, |at|)
    requires SubmittedInOrder(host, ws, steps, at, m, account, WantsTransfer(decode, alice))
    requires OrderedIds(ws, at, order, ids)
    requires Kinds(host, ws, steps)[m] == Start(ids) && Completed(ws[m], ws[k], ids, account)
    requires SumOf(AmountsFor(Identity(|at|)))
          <= F.BalanceOf(Evolve(host, ShimTarget(decode), account, s, ws[m].ran), host.currentAccount)
    ensures var before, after := Evolve(host, ShimTarget(decode), account, s, ws[m].ran),
                                 Evolve(host, ShimTarget(decode), account, s, ws[k].ran);
            ShimMatch(after, order) && Amounts(after.log) == Amounts(before.log) + Payments(order)
  {
    var submitted := SubmissionsPlan(host, ws, steps, at, k, account, WantsTransfer(decode, alice));
    assert ids == BatchIds(order, submitted);
    ShimBatchMatches(host, ws, steps, m, k, account, alice, decode, s, submitted, order);
  }
}
