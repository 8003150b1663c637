/** The fee ladder and the fee ledger. */
module Fees {
  import opened Types
  import opened GateSpec
  import opened Runtime
  import opened StepEquations
  import opened Ledger

  // ---- the ladder ----

  // What the owner may set: a non-empty ladder with positive, strictly ascending caps.
  ghost predicate ValidTiers(tiers: seq<Tier>) {
    && |tiers| > 0
    && (forall k :: 0 <= k < |tiers| ==> 0 < tiers[k].cap)
    && (forall j, k :: 0 <= j < k < |tiers| ==> tiers[j].cap < tiers[k].cap)
  }

  ghost predicate AscendingAbove(tiers: seq<Tier>, prev: nat) {
    && (forall k :: 0 <= k < |tiers| ==> prev < tiers[k].cap)
    && (forall j, k :: 0 <= j < k < |tiers| ==> tiers[j].cap < tiers[k].cap)
  }

  lemma {:induction false} FaultExactly(tiers: seq<Tier>, prev: u32)
    ensures TierFault(tiers, prev) == None <==> AscendingAbove(tiers, prev)
  {
    if |tiers| > 0 {
      FaultExactly(tiers[1..], tiers[0].cap);
      if prev < tiers[0].cap {
        if AscendingAbove(tiers[1..], tiers[0].cap) {
          forall k | 0 <= k < |tiers| ensures prev < tiers[k].cap && (k > 0 ==> tiers[0].cap < tiers[k].cap) {
            assert k > 0 ==> tiers[k] == tiers[1..][k - 1];
          }
          forall j, k | 0 < j < k < |tiers| ensures tiers[j].cap < tiers[k].cap {
            assert tiers[j] == tiers[1..][j - 1] && tiers[k] == tiers[1..][k - 1];
          }
        }
        if AscendingAbove(tiers, prev) {
          forall k | 0 <= k < |tiers[1..]| ensures tiers[0].cap < tiers[1..][k].cap {
            assert tiers[1..][k] == tiers[k + 1];
          }
        }
      }
    }
  }

  // The setter accepts exactly the valid ladders, and only from the owner.
  lemma SetterExact(g: GateState, ctx: Ctx, tiers: seq<Tier>)
    ensures SetTiers(g, ctx, tiers).Commit? <==> ctx.predecessor == g.owner && ValidTiers(tiers)
    ensures SetTiers(g, ctx, tiers).Commit? ==> SetTiers(g, ctx, tiers).g == g.(tiers := tiers)
  {
    FaultExactly(tiers, 0);
  }

  // Tier `t` is the one a batch of `n` pays: the cheapest-capped tier that covers it.
  ghost predicate LeastCover(tiers: seq<Tier>, n: u32, t: Tier) {
    t in tiers && n <= t.cap && forall u :: u in tiers && n <= u.cap ==> t.cap <= u.cap
  }

  // The loop over the ladder stops at the first tier that covers `n`.
  lemma {:induction false} CoverIndex(tiers: seq<Tier>, n: u32) returns (k: nat)
    ensures k <= |tiers| && forall j :: 0 <= j < k ==> tiers[j].cap < n
    ensures if k == |tiers| then FirstCover(tiers, n) == None
            else FirstCover(tiers, n) == Some(tiers[k]) && n <= tiers[k].cap
  {
    if |tiers| == 0 || n <= tiers[0].cap {
      k := 0;
    } else {
      k := CoverIndex(tiers[1..], n);
      forall j | 0 <= j < k + 1 ensures tiers[j].cap < n {
        assert j > 0 ==> tiers[j] == tiers[1..][j - 1];
      }
      k := k + 1;
    }
  }

  lemma OnlyLeastCover(tiers: seq<Tier>, n: u32, k: nat, t: Tier)
    requires ValidTiers(tiers) && k < |tiers| && n <= tiers[k].cap && forall j :: 0 <= j < k ==> tiers[j].cap < n
    ensures LeastCover(tiers, n, t) <==> t == tiers[k]
  {
    forall u | u in tiers && n <= u.cap ensures tiers[k].cap <= u.cap && (u.cap == tiers[k].cap ==> u == tiers[k]) {
      var j :| 0 <= j < |tiers| && tiers[j] == u;
    }
  }

  // On a valid ladder the search finds the one least-cap tier that covers `n`, and fails exactly above the last cap.
  lemma CoverExactly(tiers: seq<Tier>, n: u32)
    requires ValidTiers(tiers)
    ensures FirstCover(tiers, n) == None <==> n > tiers[|tiers| - 1].cap
    ensures forall t :: LeastCover(tiers, n, t) <==> FirstCover(tiers, n) == Some(t)
  {
    var k := CoverIndex(tiers, n);
    if k < |tiers| {
      forall t ensures LeastCover(tiers, n, t) <==> t == tiers[k] {
        OnlyLeastCover(tiers, n, k, t);
      }
    } else {
      forall t | t in tiers ensures t.cap < n {
        var j :| 0 <= j < |tiers| && tiers[j] == t;
      }
    }
  }

  // ---- the ledger ----

  function FeeFor(tiers: seq<Tier>, n: u32): nat {
    match FirstCover(tiers, n) case Some(t) => t.fee case None => 0
  }

  // What a step charges: the fee of the ladder in force, on a successful release.
  function Charge(w: World, kind: Kind): nat {
    match kind
    case Single(_, _) => FeeFor(w.gate.tiers, 1)
    case Start(ids) => if |ids| < U32_LIMIT then FeeFor(w.gate.tiers, |ids|) else 0
    case _ => 0
  }

  function PaidOut(host: Host, w: World, s: Step): nat
    requires Enabled(w, s)
  {
    if s.event.Tx? && s.event.call.WithdrawFees? && OutcomeOf(host, w, s).Commit? then s.event.call.amount else 0
  }

  lemma InvokeFees(host: Host, g: GateState, ctx: Ctx, m: Method)
    requires Invoke(host, g, ctx, m).Commit?
    ensures var g' := Invoke(host, g, ctx, m).g;
            && g'.collected == g.collected + (match m
                 case ResumeIntent(_, _) => FeeFor(g.tiers, 1)
                 case ResumeBatchChained(ids) => FeeFor(g.tiers, |ids|)
                 case _ => 0)
            && g'.tiers == (if m.SetFeeTiers? then m.tiers else g.tiers)
            && g'.withdrawn == g.withdrawn + (if m.WithdrawFees? then m.amount else 0)
  {
    if m.SubmitIntent? {
      var d, fc := Admitted(host, g, ctx, m.signedDelegate);
    }
  }

  ghost predicate FeesMove(host: Host, w: World, s: Step, w': World)
    requires Enabled(w, s)
  {
    && w'.gate.collected == w.gate.collected + Charge(w, KindOf(host, w, s))
    && w'.gate.withdrawn == w.gate.withdrawn + PaidOut(host, w, s)
    && (w'.gate.tiers != w.gate.tiers ==>
          && s.event.Tx? && s.event.call.SetFeeTiers? && OutcomeOf(host, w, s).Commit?
          && w'.gate.tiers == s.event.call.tiers)
  }

  lemma TxFees(host: Host, w: World, s: Step)
    requires Enabled(w, s) && s.event.Tx?
    ensures FeesMove(host, w, s, Next(host, w, s))
  {
    var o := Invoke(host, w.gate, CtxOf(host, w, s), s.event.call);
    assert OutcomeOf(host, w, s) == o;
    GateAfterTx(w, s.block, s.event.call, o);
    if o.Commit? {
      InvokeFees(host, w.gate, CtxOf(host, w, s), s.event.call);
    }
  }

  // The storage that receipts leave alone.
  lemma ReceiptFees(host: Host, w: World, s: Step)
    requires Enabled(w, s) && !s.event.Tx?
    ensures FeesMove(host, w, s, Next(host, w, s))
  {
  }

  lemma StepFees(host: Host, w: World, s: Step)
    requires Enabled(w, s)
    ensures FeesMove(host, w, s, Next(host, w, s))
  {
    if s.event.Tx? {
      TxFees(host, w, s);
    } else {
      ReceiptFees(host, w, s);
    }
  }

  // The ladder stays valid, and withdrawals stay within what was collected.
  ghost predicate FeesOk(w: World) {
    ValidTiers(w.gate.tiers) && w.gate.withdrawn <= w.gate.collected
  }

  lemma FeesKept(host: Host, w: World, s: Step)
    requires FeesOk(w) && Enabled(w, s)
    ensures FeesOk(Next(host, w, s))
  {
    StepFees(host, w, s);
    if s.event.Tx? && s.event.call.SetFeeTiers? {
      SetterExact(w.gate, CtxOf(host, w, s), s.event.call.tiers);
    }
  }

  lemma {:induction false} FeesAlways(host: Host, ws: seq<World>, steps: seq<Step>, k: nat)
    requires GateRun(host, ws, steps) && k < |ws|
    ensures FeesOk(ws[k])
  {
    if k > 0 {
      FeesAlways(host, ws, steps, k - 1);
      FeesKept(host, ws[k - 1], steps[k - 1]);
    }
  }

  function Charged(host: Host, ws: seq<World>, steps: seq<Step>, k: nat): nat
    requires k <= |steps| <= |ws| && forall m :: 0 <= m < k ==> Enabled(ws[m], steps[m])
  {
    if k == 0 then 0 else Charged(host, ws, steps, k - 1) + Charge(ws[k - 1], KindOf(host, ws[k - 1], steps[k - 1]))
  }

  function PaidOutTotal(host: Host, ws: seq<World>, steps: seq<Step>, k: nat): nat
    requires k <= |steps| <= |ws| && forall m :: 0 <= m < k ==> Enabled(ws[m], steps[m])
  {
    if k == 0 then 0 else PaidOutTotal(host, ws, steps, k - 1) + PaidOut(host, ws[k - 1], steps[k - 1])
  }

  // Over any run: what was collected is the sum, over the successful releases, of the fee in force at each;
  // what was withdrawn is the sum of the withdrawals, and never exceeds it.
  lemma {:induction false} FeeLedger(host: Host, ws: seq<World>, steps: seq<Step>, k: nat)
    requires GateRun(host, ws, steps) && k < |ws|
    ensures ws[k].gate.collected == Charged(host, ws, steps, k)
    ensures ws[k].gate.withdrawn == PaidOutTotal(host, ws, steps, k) <= ws[k].gate.collected
  {
    FeesAlways(host, ws, steps, k);
    if k > 0 {
      FeeLedger(host, ws, steps, k - 1);
      StepFees(host, ws[k - 1], steps[k - 1]);
    }
  }

  // In every reachable world `fee_for` returns the one least-cap tier that covers `n`, and fails exactly when
  // `n` exceeds the last cap; and the balance the owner may withdraw is the exact difference of the two totals.
  lemma FeeForReachable(host: Host, ws: seq<World>, steps: seq<Step>, k: nat, n: u32)
    requires GateRun(host, ws, steps) && k < |ws|
    ensures var tiers := ws[k].gate.tiers;
            && |tiers| > 0
            && (FirstCover(tiers, n) == None <==> n > tiers[|tiers| - 1].cap)
            && (forall t :: LeastCover(tiers, n, t) <==> FirstCover(tiers, n) == Some(t))
    ensures ws[k].gate.withdrawn <= ws[k].gate.collected
  {
    FeesAlways(host, ws, steps, k);
    CoverExactly(ws[k].gate.tiers, n);
  }

  // ---- what each released intent has paid ----

  // `rate * n` by repeated addition, which keeps products out of the proofs below.
  function Times(rate: nat, n: nat): nat {
    if n == 0 then 0 else Times(rate, n - 1) + rate
  }

  lemma {:induction false} TimesIsProduct(rate: nat, n: nat)
    ensures Times(rate, n) == rate * n
  {
    if n > 0 {
      TimesIsProduct(rate, n - 1);
    }
  }

  lemma {:induction false} TimesAdds(rate: nat, m: nat, n: nat)
    ensures Times(rate, m + n) == Times(rate, m) + Times(rate, n)
  {
    if n > 0 {
      TimesAdds(rate, m, n - 1);
    }
  }

  // Every tier charges at least `rate` for each intent it covers.
  ghost predicate ChargesAtLeast(tiers: seq<Tier>, rate: nat) {
    forall t :: t in tiers ==> Times(rate, t.cap) <= t.fee
  }

  // Released by the approver or by a chain, rather than timed out.
  function WasReleased(p: Phase): nat {
    match p
    case Waiting => 0
    case TimedOut => 0
    case Rejected(byTimeout) => if byTimeout then 0 else 1
    case _ => 1
  }

  function Owed(w: World): nat { Sum(w.intents, WasReleased) + |w.gate.tail| }

  lemma FeeAtLeast(tiers: seq<Tier>, rate: nat, n: u32)
    requires ChargesAtLeast(tiers, rate) && FirstCover(tiers, n).Some?
    ensures Times(rate, n) <= FeeFor(tiers, n)
  {
    var k := CoverIndex(tiers, n);
    assert tiers[k] in tiers;
    TimesAdds(rate, n, tiers[k].cap - n);
  }

  lemma OwedParking(w: World, w': World)
    requires ParkingMove(w, w')
    ensures Owed(w') == Owed(w)
  {
    var it := w'.intents[|w.intents|];
    assert w'.intents == w.intents + [it];
    SumAppend(w.intents, it, WasReleased);
  }

  lemma OwedLink(w: World, w': World, id: nat)
    requires Inv(w) && LinkMove(w, w', id)
    ensures Owed(w') == Owed(w)
  {
    LinkMovesTwo(w, w', id);
    var mid, y := AfterFinish(w, id, w'.block), w.intents[id].phase.next.nextId;
    SumUpdate(w.intents, id, mid.intents[id], WasReleased);
    SumUpdate(mid.intents, y, w'.intents[y], WasReleased);
  }

  lemma OwedPull(w: World, w': World, id: nat)
    requires Inv(w) && PullMove(w, w', id)
    ensures Owed(w') == Owed(w)
  {
    PullMovesTwo(w, w', id);
    var mid, y := AfterArrival(w, id, w'.block), w.gate.tail[0];
    SumUpdate(w.intents, id, mid.intents[id], WasReleased);
    SumUpdate(mid.intents, y, w'.intents[y], WasReleased);
  }

  lemma OwedReceipt(w: World, w': World, kind: Kind)
    requires Inv(w) && Moves(w, w', kind)
    requires kind.Expire? || kind.Refuse? || kind.Abort? || kind.Send? || kind.Arrive? || kind.Break?
    ensures Owed(w') == Owed(w)
  {
    if kind.Expire? || kind.Arrive? || kind.Break? {
      ReceiptMovesOne(w, w', kind);
    } else {
      CallbackMovesOne(w, w', kind);
    }
    SumUpdate(w.intents, kind.id, w'.intents[kind.id], WasReleased);
  }

  lemma OwedRelease(w: World, w': World, kind: Kind)
    requires Inv(w) && Moves(w, w', kind) && (kind.Single? || kind.Start?)
    ensures Owed(w') == Owed(w) + if kind.Start? then |kind.ids| else 1
  {
    var id := ReleaseMovesOne(w, w', kind);
    SumUpdate(w.intents, id, w'.intents[id], WasReleased);
  }

  // How many intents a step pays to release.
  function PaidFor(kind: Kind): nat {
    match kind case Single(_, _) => 1 case Start(ids) => |ids| case _ => 0
  }

  // Only a paid release adds to what is owed, and by no more than it pays for.
  lemma OwedStep(w: World, w': World, kind: Kind)
    requires Inv(w) && Moves(w, w', kind)
    ensures Owed(w') <= Owed(w) + PaidFor(kind)
  {
    if kind.Single? || kind.Start? {
      OwedRelease(w, w', kind);
    } else if kind.Parking? {
      OwedParking(w, w');
    } else if kind.Pull? {
      OwedPull(w, w', kind.id);
    } else if kind.Link? {
      OwedLink(w, w', kind.id);
    } else if !kind.Quiet? && !kind.Reset? && !kind.Foreign? {
      OwedReceipt(w, w', kind);
    }
  }

  lemma ChargedForRelease(host: Host, w: World, s: Step)
    requires Enabled(w, s)
    ensures match KindOf(host, w, s)
            case Single(_, _) => FirstCover(w.gate.tiers, 1).Some?
            case Start(ids) => |ids| < U32_LIMIT && FirstCover(w.gate.tiers, |ids|).Some?
            case _ => true
  {
  }

  lemma ChargePays(host: Host, w: World, s: Step, rate: nat)
    requires Enabled(w, s) && ChargesAtLeast(w.gate.tiers, rate)
    ensures Times(rate, PaidFor(KindOf(host, w, s))) <= Charge(w, KindOf(host, w, s))
  {
    ChargedForRelease(host, w, s);
    var n := PaidFor(KindOf(host, w, s));
    if 0 < n {
      FeeAtLeast(w.gate.tiers, rate, n);
    }
  }

  ghost predicate Paid(w: World, rate: nat) { Times(rate, Owed(w)) <= w.gate.collected }

  lemma PaidKept(w: World, w': World, kind: Kind, rate: nat)
    requires Inv(w) && Moves(w, w', kind) && Paid(w, rate)
    requires w.gate.collected + Times(rate, PaidFor(kind)) <= w'.gate.collected
    ensures Paid(w', rate)
  {
    var n := PaidFor(kind);
    OwedStep(w, w', kind);
    TimesAdds(rate, Owed(w), n);
    TimesAdds(rate, Owed(w'), Owed(w) + n - Owed(w'));
  }

  lemma PaysForItself(host: Host, w: World, s: Step, rate: nat)
    requires Inv(w) && Enabled(w, s) && ChargesAtLeast(w.gate.tiers, rate) && Paid(w, rate)
    ensures Paid(Next(host, w, s), rate)
  {
    StepMoves(host, w, s);
    StepFees(host, w, s);
    ChargePays(host, w, s, rate);
    PaidKept(w, Next(host, w, s), KindOf(host, w, s), rate);
  }

  lemma {:induction false} PaidAlways(host: Host, ws: seq<World>, steps: seq<Step>, k: nat, rate: nat)
    requires GateRun(host, ws, steps) && k < |ws|
    requires forall m :: 0 <= m < k ==> ChargesAtLeast(ws[m].gate.tiers, rate)
    ensures Paid(ws[k], rate)
  {
    if k > 0 {
      PaidAlways(host, ws, steps, k - 1, rate);
      Always(host, ws, steps, k - 1);
      PaysForItself(host, ws[k - 1], steps[k - 1], rate);
    }
  }

  // As long as every ladder that comes into force charges at least `rate` per intent, the fees collected are
  // at least `rate` for every intent released so far and every intent the chain has yet to release.
  lemma RatePerIntent(host: Host, ws: seq<World>, steps: seq<Step>, k: nat, rate: nat)
    requires GateRun(host, ws, steps) && k < |ws|
    requires forall m, t :: 0 <= m < k && t in ws[m].gate.tiers ==> rate * t.cap <= t.fee
    ensures rate * (Sum(ws[k].intents, WasReleased) + |ws[k].gate.tail|) <= ws[k].gate.collected
  {
    forall m, t | 0 <= m < k && t in ws[m].gate.tiers ensures Times(rate, t.cap) <= t.fee {
      TimesIsProduct(rate, t.cap);
    }
    PaidAlways(host, ws, steps, k, rate);
    TimesIsProduct(rate, Owed(ws[k]));
  }

  // While the ladder the gate is deployed with stays in force, that is 0.005 NEAR per intent.
  lemma DefaultLadderRate(host: Host, ws: seq<World>, steps: seq<Step>, k: nat)
    requires GateRun(host, ws, steps) && k < |ws|
    requires forall m :: 0 <= m < k ==> ws[m].gate.tiers == DEFAULT_FEE_TIERS
    ensures 5_000_000_000_000_000_000_000 * (Sum(ws[k].intents, WasReleased) + |ws[k].gate.tail|)
         <= ws[k].gate.collected
  {
    RatePerIntent(host, ws, steps, k, 5_000_000_000_000_000_000_000);
  }
}
