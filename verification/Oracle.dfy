/** The client's check of a target's log after a batch: when it says MATCH, and exactly when that can be
    trusted. */
module Oracle {
  import opened Types
  import opened Nonces
  import opened Sequence
  import R = Register
  import F = FtShim

  // ---- the check ----

  // `match` for the register: its current value and the tail of its log, as decimal strings.
  predicate RegisterMatch(r: R.RegisterState, order: seq<int>)
    requires |order| > 0 && Indices(order)
  {
    var expectedLog := Decimals(ValuesFor(order));
    && Decimal(r.current) == expectedLog[|order| - 1]
    && SliceFrom(Decimals(r.log), |r.log| - |order|) == expectedLog
  }

  function Amounts(log: seq<F.Transferred>): (r: seq<nat>)
    ensures |r| == |log| && forall k :: 0 <= k < |r| ==> r[k] == log[k].amount
  {
    seq(|log|, k requires 0 <= k < |log| => log[k].amount)
  }

  // `match` for the shim: the amounts in the tail of its transfer log, as decimal strings.
  predicate ShimMatch(s: F.ShimState, order: seq<int>)
    requires Indices(order)
  {
    Decimals(Amounts(SliceFrom(s.log, |s.log| - |order|))) == Decimals(AmountsFor(order))
  }

  // Showing a log and slicing it commute.
  lemma ShownTail(log: seq<nat>, expected: seq<nat>)
    ensures SliceFrom(Decimals(log), |log| - |expected|) == Decimals(expected) <==> EndsWith<nat>(log, expected)
  {
    SliceComparesTail(Decimals(log), Decimals(expected));
    if |expected| <= |log| {
      var tail := log[|log| - |expected|..];
      assert Decimals(log)[|log| - |expected|..] == Decimals(tail);
      DecimalsInjective(tail, expected);
    }
  }

  lemma SameShown(m: nat, n: nat)
    ensures Decimal(m) == Decimal(n) <==> m == n
  {
    if Decimal(m) == Decimal(n) {
      DecimalInjective(m, n);
    }
  }

  // On any register, the check says that the current value is the last one expected, and that the log ends with the
  // expected values.
  lemma RegisterMatchExactly(r: R.RegisterState, order: seq<int>)
    requires |order| > 0 && Indices(order)
    ensures RegisterMatch(r, order)
       <==> r.current == 11 * (order[|order| - 1] + 1) && EndsWith<nat>(r.log, ValuesFor(order))
  {
    ShownTail(r.log, ValuesFor(order));
    SameShown(r.current, ValuesFor(order)[|order| - 1]);
  }

  // On a register whose fields agree, the check says that the log ends with the expected values.
  lemma RegisterMatchesTail(r: R.RegisterState, order: seq<int>)
    requires R.Consistent(r) && |order| > 0 && Indices(order)
    ensures RegisterMatch(r, order) <==> EndsWith<nat>(r.log, ValuesFor(order))
  {
    var expected := ValuesFor(order);
    ShownTail(r.log, expected);
    if EndsWith<nat>(r.log, expected) {
      assert r.log[|r.log| - 1] == r.log[|r.log| - |order|..][|order| - 1] == expected[|order| - 1];
    }
  }

  lemma ShimMatchesTail(s: F.ShimState, order: seq<int>)
    requires Indices(order)
    ensures ShimMatch(s, order) <==> EndsWith<nat>(Amounts(s.log), AmountsFor(order))
  {
    DecimalsInjective(Amounts(SliceFrom(s.log, |s.log| - |order|)), AmountsFor(order));
    if |order| <= |s.log| {
      assert Amounts(s.log[|s.log| - |order|..]) == Amounts(s.log)[|s.log| - |order|..];
    }
  }

  // ---- the register ----

  predicate Small(order: seq<int>) {
    forall k :: 0 <= k < |order| ==> 0 <= order[k] < U32_LIMIT
  }

  // The values an order of calls writes, as the register takes them.
  function Writes(order: seq<int>): (r: seq<u64>)
    requires Small(order)
    ensures r == ValuesFor(order)
  {
    ValuesFor(order)
  }

  // If the counter has room for all the writes, the check says MATCH for exactly the order that was run.
  lemma RegisterRoomSuffices(r: R.RegisterState, ran: seq<int>, order: seq<int>)
    requires R.Consistent(r) && 0 < |order| == |ran| && |r.log| + |ran| < U32_LIMIT
    requires Indices(order) && Small(ran)
    ensures RegisterMatch(R.Sets(r, Writes(ran)), order) <==> ran == order
  {
    R.SetsAppend(r, Writes(ran));
    RegisterMatchesTail(R.Sets(r, Writes(ran)), order);
    assert (r.log + Writes(ran))[|r.log|..] == Writes(ran);
    OrdersShow(ran, order);
  }

  // The check tells the order of `n` calls apart on register `r`.
  ghost predicate RegisterFaithful(r: R.RegisterState, n: nat)
    requires 0 < n < U32_LIMIT
  {
    forall ran, order :: IsPermutation(ran, n) && IsPermutation(order, n) ==>
      (RegisterMatch(R.Sets(r, Writes(ran)), order) <==> ran == order)
  }

  ghost predicate RegisterReachable(r: R.RegisterState) {
    exists calls :: r == R.Replay(calls)
  }

  // 0 .. n-1 turned so that it starts at `turn`.
  function Rotation(n: nat, turn: nat): (r: seq<int>)
    requires 0 < turn < n
    ensures IsPermutation(r, n) && r[0] == turn && r != Identity(n)
    ensures forall k :: n - turn <= k < n ==> r[k] == k + turn - n
  {
    var r := seq(n, k requires 0 <= k < n => if k + turn < n then k + turn else k + turn - n);
    assert r[0] != Identity(n)[0];
    r
  }

  // The amounts an order of calls moves, as the shim takes them.
  function Payments(order: seq<int>): (r: seq<u128>)
    requires Small(order)
    ensures r == AmountsFor(order)
  {
    AmountsFor(order)
  }

  // An order that ends with the first `fit` calls in sequence, but is not the sequence.
  lemma Misleading(n: nat, fit: nat) returns (order: seq<int>)
    requires fit < n && 2 <= n < U32_LIMIT
    ensures IsPermutation(order, n) && order != Identity(n)
    ensures Writes(Identity(n))[..fit] == Writes(order)[n - fit..]
    ensures Payments(Identity(n))[..fit] == Payments(order)[n - fit..]
  {
    order := Rotation(n, if fit == 0 then 1 else fit);
  }

  lemma Joined(front: seq<nat>, whole: seq<nat>, cut: nat)
    requires cut <= |whole|
    ensures EndsWith<nat>(front + whole[..cut] + whole[cut..], whole)
  {
    assert front + whole[..cut] + whole[cut..] == front + whole;
  }

  lemma {:induction false} SetsFromEmpty(values: seq<u64>) returns (calls: seq<R.RegisterCall>)
    ensures R.Sets(R.EMPTY, values) == R.Replay(calls)
  {
    if |values| == 0 {
      calls := [];
    } else {
      var front := SetsFromEmpty(values[..|values| - 1]);
      calls := front + [R.Set(values[|values| - 1])];
      assert calls[..|front|] == front;
    }
  }

  // A register whose log is `log`.
  lemma RegisterWith(log: seq<u64>) returns (r: R.RegisterState)
    requires |log| < U32_LIMIT
    ensures RegisterReachable(r) && R.Consistent(r) && r.log == log
  {
    var calls := SetsFromEmpty(log);
    r := R.Sets(R.EMPTY, log);
    assert r == R.Replay(calls);
    R.SetsAppend(R.EMPTY, log);
    assert R.EMPTY.log + log == log;
  }

  // Once the counter is full, the log ends with the old entries, then the first of the new ones.
  lemma FillsUp(r: R.RegisterState, older: seq<u64>, values: seq<u64>, expected: seq<u64>, fit: nat)
    requires R.Consistent(r) && |r.log| + fit == U32_LIMIT - 1 && fit < |values| == |expected|
    requires r.log == older + expected[..|expected| - fit] && values[..fit] == expected[|expected| - fit..]
    ensures R.Consistent(R.Sets(r, values)) && EndsWith<nat>(R.Sets(r, values).log, expected)
  {
    R.SetsAppend(r, values);
    assert R.Sets(r, values).log == r.log + values[..fit];
    Joined(older, expected, |expected| - fit);
  }

  // A register whose counter fills up after `fit` more writes, and whose old log ends with what is missing.
  lemma NearlyFull(order: seq<int>, fit: nat) returns (r: R.RegisterState)
    requires fit < |order| < U32_LIMIT && Small(order)
    ensures RegisterReachable(r) && R.Consistent(r) && |r.log| + fit == U32_LIMIT - 1
    ensures r.log == Zeros(U32_LIMIT - 1 - |order|) + Writes(order)[..|order| - fit]
  {
    r := RegisterWith(Zeros(U32_LIMIT - 1 - |order|) + Writes(order)[..|order| - fit]);
  }

  lemma RegisterConfuses(r: R.RegisterState, n: nat, order: seq<int>)
    requires 0 < n < U32_LIMIT && IsPermutation(order, n) && order != Identity(n)
    requires RegisterMatch(R.Sets(r, Writes(Identity(n))), order)
    ensures !RegisterFaithful(r, n)
  {
    IdentityPermutes(n);
  }

  lemma FillsToMatch(r: R.RegisterState, ran: seq<int>, order: seq<int>, fit: nat)
    requires R.Consistent(r) && |r.log| + fit == U32_LIMIT - 1 && fit < |order| == |ran| < U32_LIMIT
    requires Small(order)
    requires Small(ran)
    requires r.log == Zeros(U32_LIMIT - 1 - |order|) + Writes(order)[..|order| - fit]
    requires Writes(ran)[..fit] == Writes(order)[|order| - fit..]
    ensures RegisterMatch(R.Sets(r, Writes(ran)), order)
  {
    FillsUp(r, Zeros(U32_LIMIT - 1 - |order|), Writes(ran), Writes(order), fit);
    RegisterMatchesTail(R.Sets(r, Writes(ran)), order);
  }

  // There the check takes one order of calls for another.
  lemma RegisterFooled(n: nat, count: u32, fit: nat) returns (r: R.RegisterState)
    requires 2 <= n < U32_LIMIT && fit < n && count + fit == U32_LIMIT - 1
    ensures RegisterReachable(r) && r.setCount == count && !RegisterFaithful(r, n)
  {
    var order := Misleading(n, fit);
    r := NearlyFull(order, fit);
    FillsToMatch(r, Identity(n), order, fit);
    RegisterConfuses(r, n, order);
  }

  // For two calls or more, the check can be trusted on every register whose counter stands at `count` if and
  // only if the counter has room for all of them.
  lemma RegisterTrusted(n: nat, count: u32)
    requires 2 <= n < U32_LIMIT
    ensures (forall r :: RegisterReachable(r) && r.setCount == count ==> RegisterFaithful(r, n))
       <==> count + n < U32_LIMIT
  {
    if count + n < U32_LIMIT {
      forall r, ran, order |
        RegisterReachable(r) && r.setCount == count && IsPermutation(ran, n) && IsPermutation(order, n)
        ensures RegisterMatch(R.Sets(r, Writes(ran)), order) <==> ran == order
      {
        var calls :| r == R.Replay(calls);
        R.LogIsWritten(calls);
        RegisterRoomSuffices(r, ran, order);
      }
    } else {
      var r := RegisterFooled(n, count, U32_LIMIT - 1 - count);
    }
  }

  // ---- the shim ----

  // `from` asks to pay each amount to `to`, in turn.
  function Pay(s: F.ShimState, from: AccountId, to: AccountId, amounts: seq<u128>): F.ShimState {
    if |amounts| == 0 then s
    else F.Request(Pay(s, from, to, amounts[..|amounts| - 1]), F.Transferred(from, to, amounts[|amounts| - 1]))
  }

  function SumOf(amounts: seq<nat>): nat {
    if |amounts| == 0 then 0 else SumOf(amounts[..|amounts| - 1]) + amounts[|amounts| - 1]
  }

  // A payer with enough to pay everything pays everything.
  lemma {:induction false} PaysAll(s: F.ShimState, from: AccountId, to: AccountId, amounts: seq<u128>)
    requires F.Conserves(s) && from != to && SumOf(amounts) <= F.BalanceOf(s, from)
    requires forall k :: 0 <= k < |amounts| ==> 0 < amounts[k]
    ensures F.Conserves(Pay(s, from, to, amounts))
    ensures Amounts(Pay(s, from, to, amounts).log) == Amounts(s.log) + amounts
    ensures F.BalanceOf(Pay(s, from, to, amounts), from) == F.BalanceOf(s, from) - SumOf(amounts)
    ensures F.BalanceOf(Pay(s, from, to, amounts), to) == F.BalanceOf(s, to) + SumOf(amounts)
    ensures forall a :: a != from && a != to ==> F.BalanceOf(Pay(s, from, to, amounts), a) == F.BalanceOf(s, a)
  {
    if |amounts| > 0 {
      var front, last := amounts[..|amounts| - 1], amounts[|amounts| - 1];
      PaysAll(s, from, to, front);
      var mid := Pay(s, from, to, front);
      F.SucceedsExactlyWhen(mid, from, to, last);
      F.TransferConserves(mid, from, to, last);
    }
  }

  // A payer who cannot afford the smallest of the amounts pays none.
  lemma {:induction false} PaysNone(s: F.ShimState, from: AccountId, to: AccountId, amounts: seq<u128>)
    requires forall k :: 0 <= k < |amounts| ==> F.BalanceOf(s, from) < amounts[k]
    ensures Pay(s, from, to, amounts) == s
  {
    if |amounts| > 0 {
      PaysNone(s, from, to, amounts[..|amounts| - 1]);
    }
  }

  lemma {:induction false} PayConcat(s: F.ShimState, from: AccountId, to: AccountId, a: seq<u128>, b: seq<u128>)
    ensures Pay(s, from, to, a + b) == Pay(Pay(s, from, to, a), from, to, b)
  {
    if |b| == 0 {
      assert a + b == a;
    } else {
      PayConcat(s, from, to, a, b[..|b| - 1]);
      assert (a + b)[..|a + b| - 1] == a + b[..|b| - 1];
    }
  }

  // If the gate can pay every amount, the check says MATCH for exactly the order that was run.
  lemma ShimFundsSuffice(s: F.ShimState, gate: AccountId, alice: AccountId, ran: seq<int>, order: seq<int>)
    requires F.Conserves(s) && gate != alice && |order| == |ran|
    requires Indices(order) && Small(ran)
    requires SumOf(Payments(ran)) <= F.BalanceOf(s, gate)
    ensures ShimMatch(Pay(s, gate, alice, Payments(ran)), order) <==> ran == order
  {
    PaysAll(s, gate, alice, Payments(ran));
    ShimMatchesTail(Pay(s, gate, alice, Payments(ran)), order);
    assert (Amounts(s.log) + Payments(ran))[|s.log|..] == Payments(ran);
    OrdersShow(ran, order);
  }

  ghost predicate ShimFaithful(s: F.ShimState, gate: AccountId, alice: AccountId, n: nat)
    requires 0 < n < U32_LIMIT
  {
    forall ran, order :: IsPermutation(ran, n) && IsPermutation(order, n) ==>
      (ShimMatch(Pay(s, gate, alice, Payments(ran)), order) <==> ran == order)
  }

  ghost predicate ShimReachable(s: F.ShimState) {
    exists owner, supply, requests :: s == F.Replay(F.New(owner, supply), requests)
  }

  lemma {:induction false} PayReaches(s: F.ShimState, from: AccountId, to: AccountId, amounts: seq<u128>)
    requires ShimReachable(s)
    ensures ShimReachable(Pay(s, from, to, amounts))
  {
    if |amounts| > 0 {
      PayReaches(s, from, to, amounts[..|amounts| - 1]);
      var paid := Pay(s, from, to, amounts[..|amounts| - 1]);
      var owner, supply, requests :| paid == F.Replay(F.New(owner, supply), requests);
      var more := requests + [F.Transferred(from, to, amounts[|amounts| - 1])];
      assert more[..|more| - 1] == requests;
      assert Pay(s, from, to, amounts) == F.Replay(F.New(owner, supply), more);
    }
  }

  lemma ReachableConserves(s: F.ShimState)
    requires ShimReachable(s)
    ensures F.Conserves(s)
  {
    var owner, supply, requests :| s == F.Replay(F.New(owner, supply), requests);
    F.SupplyConserved(owner, supply, requests);
  }

  // A shim that holds `funds` for the gate and whose transfer log ends with `recent`.
  lemma ShimWith(gate: AccountId, alice: AccountId, funds: u128, recent: seq<u128>)
    returns (s: F.ShimState, front: seq<nat>)
    requires gate != alice && funds + SumOf(recent) < U128_LIMIT
    requires forall k :: 0 <= k < |recent| ==> 0 < recent[k]
    ensures ShimReachable(s) && F.BalanceOf(s, gate) == funds && Amounts(s.log) == front + recent
  {
    var owner: AccountId :=
      if [97, 97] != gate && [97, 97] != alice then [97, 97]
      else if [98, 98] != gate && [98, 98] != alice then [98, 98]
      else [99, 99];
    var minted := F.New(owner, funds + SumOf(recent));
    assert minted == F.Replay(minted, []);
    var first := if funds > 0 then [funds] else [];
    assert SumOf(first) == funds;
    ReachableConserves(minted);
    PaysAll(minted, owner, gate, first);
    PayReaches(minted, owner, gate, first);
    var funded := Pay(minted, owner, gate, first);
    PaysAll(funded, owner, alice, recent);
    PayReaches(funded, owner, alice, recent);
    s, front := Pay(funded, owner, alice, recent), Amounts(funded.log);
  }

  // Where the payments stop.
  lemma {:induction false} RunsOut(amounts: seq<nat>, funds: nat) returns (p: nat)
    requires funds < SumOf(amounts)
    ensures p < |amounts| && SumOf(amounts[..p]) <= funds < SumOf(amounts[..p]) + amounts[p]
  {
    var n := |amounts| - 1;
    if SumOf(amounts[..n]) <= funds {
      p := n;
    } else {
      p := RunsOut(amounts[..n], funds);
      assert amounts[..n][..p] == amounts[..p];
    }
  }

  // Rising amounts are paid up to the first that the payer cannot afford, and none after it.
  lemma PaysPrefix(s: F.ShimState, from: AccountId, to: AccountId, amounts: seq<u128>, p: nat)
    requires F.Conserves(s) && from != to && p < |amounts|
    requires SumOf(amounts[..p]) <= F.BalanceOf(s, from) < SumOf(amounts[..p]) + amounts[p]
    requires forall k :: 0 <= k < |amounts| ==> 0 < amounts[k]
    requires forall k :: p <= k < |amounts| ==> amounts[p] <= amounts[k]
    ensures Amounts(Pay(s, from, to, amounts).log) == Amounts(s.log) + amounts[..p]
  {
    assert amounts == amounts[..p] + amounts[p..];
    PayConcat(s, from, to, amounts[..p], amounts[p..]);
    PaysAll(s, from, to, amounts[..p]);
    PaysNone(Pay(s, from, to, amounts[..p]), from, to, amounts[p..]);
  }

  lemma {:induction false} SumBound(amounts: seq<nat>, most: nat)
    requires forall k :: 0 <= k < |amounts| ==> amounts[k] <= most
    ensures SumOf(amounts) <= most * |amounts|
  {
    if |amounts| > 0 {
      SumBound(amounts[..|amounts| - 1], most);
    }
  }

  lemma ShimConfuses(s: F.ShimState, gate: AccountId, alice: AccountId, n: nat, order: seq<int>)
    requires 0 < n < U32_LIMIT && IsPermutation(order, n) && order != Identity(n)
    requires ShimMatch(Pay(s, gate, alice, Payments(Identity(n))), order)
    ensures !ShimFaithful(s, gate, alice, n)
  {
    IdentityPermutes(n);
  }

  // The amounts of a batch come nowhere near the width of a balance.
  predicate SmallAmounts(amounts: seq<u128>) {
    forall k :: 0 <= k < |amounts| ==> 0 < amounts[k] < 0x20_0000_0000
  }

  lemma PaymentsSmall(order: seq<int>)
    requires Small(order)
    ensures SmallAmounts(Payments(order))
  {
  }

  // A shim where the gate runs out of balance after `p` of the payments, and whose log then ends with
  // `expected` all the same, because an earlier run left what is missing.
  lemma RunDry(gate: AccountId, alice: AccountId, funds: u128, amounts: seq<u128>, expected: seq<u128>, p: nat)
    returns (s: F.ShimState)
    requires gate != alice && p < |amounts| == |expected| && amounts[..p] == expected[|expected| - p..]
    requires SumOf(amounts[..p]) <= funds < SumOf(amounts[..p]) + amounts[p]
    requires forall k :: 0 <= k < |amounts| ==> 0 < amounts[k] && 0 < expected[k]
    requires forall k :: p <= k < |amounts| ==> amounts[p] <= amounts[k]
    requires funds + SumOf(expected[..|expected| - p]) < U128_LIMIT
    ensures ShimReachable(s) && F.BalanceOf(s, gate) == funds
    ensures EndsWith<nat>(Amounts(Pay(s, gate, alice, amounts).log), expected)
  {
    var front;
    s, front := ShimWith(gate, alice, funds, expected[..|expected| - p]);
    ReachableConserves(s);
    PaysPrefix(s, gate, alice, amounts, p);
    Joined(front, expected, |expected| - p);
  }

  lemma PaymentsRise(n: nat, p: nat)
    requires p < n < U32_LIMIT
    ensures forall k :: p <= k < n ==> Payments(Identity(n))[p] <= Payments(Identity(n))[k]
  {
  }

  // The gate runs out on the calls in sequence, and the log ends with `expected`.
  lemma RunDryOn(gate: AccountId, alice: AccountId, funds: u128, n: nat, expected: seq<u128>, p: nat)
    returns (s: F.ShimState)
    requires gate != alice && p < n < U32_LIMIT && |expected| == n && SmallAmounts(expected)
    requires var amounts := Payments(Identity(n));
             && SmallAmounts(amounts) && funds < SumOf(amounts) && amounts[..p] == expected[n - p..]
             && SumOf(amounts[..p]) <= funds < SumOf(amounts[..p]) + amounts[p]
    ensures ShimReachable(s) && F.BalanceOf(s, gate) == funds
    ensures EndsWith<nat>(Amounts(Pay(s, gate, alice, Payments(Identity(n))).log), expected)
  {
    PaymentsRise(n, p);
    SumBound(Payments(Identity(n)), 0x20_0000_0000);
    SumBound(expected[..n - p], 0x20_0000_0000);
    s := RunDry(gate, alice, funds, Payments(Identity(n)), expected, p);
  }

  // There the check takes one order of calls for another.
  lemma ShimFooled(gate: AccountId, alice: AccountId, n: nat, funds: u128) returns (s: F.ShimState)
    requires gate != alice && 2 <= n < U32_LIMIT && funds < SumOf(Payments(Identity(n)))
    ensures ShimReachable(s) && F.BalanceOf(s, gate) == funds && !ShimFaithful(s, gate, alice, n)
  {
    var p := RunsOut(Payments(Identity(n)), funds);
    var order := Misleading(n, p);
    PaymentsSmall(order);
    PaymentsSmall(Identity(n));
    s := RunDryOn(gate, alice, funds, n, Payments(order), p);
    ShimMatchesTail(Pay(s, gate, alice, Payments(Identity(n))), order);
    ShimConfuses(s, gate, alice, n, order);
  }

  // ---- every order moves the same total ----

  function Without(s: seq<int>, k: nat): seq<int>
    requires k < |s|
  {
    s[..k] + s[k + 1..]
  }

  lemma {:induction false} SumWithout(s: seq<nat>, k: nat)
    requires k < |s|
    ensures SumOf(s) == SumOf(s[..k] + s[k + 1..]) + s[k]
  {
    var n := |s| - 1;
    var rest := s[..k] + s[k + 1..];
    if k == n {
      assert rest == s[..n];
    } else {
      SumWithout(s[..n], k);
      assert rest[..|rest| - 1] == s[..n][..k] + s[..n][k + 1..];
    }
  }

  lemma WithoutLast(order: seq<int>, n: nat, k: nat)
    requires IsPermutation(order, n) && k < n && order[k] == n - 1
    ensures IsPermutation(Without(order, k), n - 1)
  {
  }

  lemma AmountsWithout(order: seq<int>, k: nat)
    requires Indices(order) && k < |order|
    ensures SumOf(AmountsFor(order)) == SumOf(AmountsFor(Without(order, k))) + AmountOf(order[k])
  {
    SumWithout(AmountsFor(order), k);
    assert AmountsFor(Without(order, k)) == AmountsFor(order)[..k] + AmountsFor(order)[k + 1..];
  }

  lemma {:induction false} SameTotal(order: seq<int>, n: nat)
    requires IsPermutation(order, n)
    ensures SumOf(AmountsFor(order)) == SumOf(AmountsFor(Identity(n)))
  {
    if n == 0 {
      assert order == Identity(n);
    } else {
      var k := Onto(order, n, n - 1);
      WithoutLast(order, n, k);
      SameTotal(Without(order, k), n - 1);
      AmountsWithout(order, k);
      AmountsWithout(Identity(n), n - 1);
      assert Without(Identity(n), n - 1) == Identity(n - 1);
    }
  }

  // A batch that is paid in full moves the sum of the amounts, whatever its order.
  lemma PaysTotal(s: F.ShimState, gate: AccountId, alice: AccountId, order: seq<int>, n: nat)
    requires F.Conserves(s) && gate != alice && n < U32_LIMIT && IsPermutation(order, n)
    requires SumOf(AmountsFor(Identity(n))) <= F.BalanceOf(s, gate)
    ensures var after, total := Pay(s, gate, alice, Payments(order)), SumOf(AmountsFor(Identity(n)));
            && Amounts(after.log) == Amounts(s.log) + Payments(order)
            && F.BalanceOf(after, alice) == F.BalanceOf(s, alice) + total
            && F.BalanceOf(after, gate) == F.BalanceOf(s, gate) - total
  {
    SameTotal(order, n);
    PaysAll(s, gate, alice, Payments(order));
  }

  // For two calls or more, the check can be trusted on every shim where the gate holds `funds` if and only if
  // those cover all the amounts. Otherwise a transfer fails, the log grows by less than the batch, and what an
  // earlier run left at its end can make the check say MATCH for an order that was not run.
  lemma ShimTrusted(gate: AccountId, alice: AccountId, n: nat, funds: u128)
    requires gate != alice && 2 <= n < U32_LIMIT
    ensures (forall s :: ShimReachable(s) && F.BalanceOf(s, gate) == funds ==> ShimFaithful(s, gate, alice, n))
            <==> SumOf(AmountsFor(Identity(n))) <= funds
  {
    if SumOf(AmountsFor(Identity(n))) <= funds {
      forall s, ran, order |
        ShimReachable(s) && F.BalanceOf(s, gate) == funds && IsPermutation(ran, n) && IsPermutation(order, n)
        ensures ShimMatch(Pay(s, gate, alice, Payments(ran)), order) <==> ran == order
      {
        ReachableConserves(s);
        SameTotal(ran, n);
        ShimFundsSuffice(s, gate, alice, ran, order);
      }
    } else {
      var s := ShimFooled(gate, alice, n, funds);
    }
  }
}
