/** The `ft-shim` target: balances and a log of transfers. */
module FtShim {
  import opened Types

  datatype Transferred = Transferred(from: AccountId, to: AccountId, amount: u128)

  datatype ShimState = ShimState(totalSupply: u128, balances: map<AccountId, u128>, log: seq<Transferred>)

  datatype Fault = ZeroAmount | ToSelf | InsufficientBalance | ReceiverOverflow

  datatype Result = Ok(s: ShimState) | Fail(fault: Fault)

  function New(owner: AccountId, supply: u128): ShimState {
    ShimState(supply, map[owner := supply], [])
  }

  function Entry(balances: map<AccountId, u128>, a: AccountId): u128 {
    if a in balances then balances[a] else 0
  }

  function BalanceOf(s: ShimState, a: AccountId): u128 {
    Entry(s.balances, a)
  }

  function Credit(balances: map<AccountId, u128>, a: AccountId, amount: u128): map<AccountId, u128> {
    if amount == 0 then balances - {a} else balances[a := amount]
  }

  function Transfer(s: ShimState, sender: AccountId, receiver: AccountId, amount: u128): Result {
    if amount == 0 then Fail(ZeroAmount)
    else if sender == receiver then Fail(ToSelf)
    else if BalanceOf(s, sender) < amount then Fail(InsufficientBalance)
    else if BalanceOf(s, receiver) + amount >= U128_LIMIT then Fail(ReceiverOverflow)
    else
      var debited := Credit(s.balances, sender, BalanceOf(s, sender) - amount);
      Ok(ShimState(s.totalSupply, debited[receiver := BalanceOf(s, receiver) + amount],
                   s.log + [Transferred(sender, receiver, amount)]))
  }

  class FtShim {
    var totalSupply: u128
    var balances: map<AccountId, u128>
    var transferLog: seq<Transferred>

    function State(): ShimState
      reads this
    {
      ShimState(totalSupply, balances, transferLog)
    }

    constructor (owner: AccountId, supply: u128)
      ensures State() == New(owner, supply)
    {
      totalSupply := supply;
      balances := map[owner := supply];
      transferLog := [];
    }

    // Every check comes before the first write, so a transfer that panics has written nothing.
    method TransferTo(sender: AccountId, receiver: AccountId, amount: u128) returns (fault: Option<Fault>)
      modifies this
      ensures match Transfer(old(State()), sender, receiver, amount)
              case Ok(s) => fault == None && State() == s
              case Fail(f) => fault == Some(f) && State() == old(State())
    {
      if amount == 0 {
        return Some(ZeroAmount);
      }
      if sender == receiver {
        return Some(ToSelf);
      }
      var senderBalance := Balance(sender);
      if senderBalance < amount {
        return Some(InsufficientBalance);
      }
      var receiverBalance := Balance(receiver);
      var newSender := senderBalance - amount;
      if receiverBalance + amount >= U128_LIMIT {
        return Some(ReceiverOverflow);
      }
      if newSender == 0 {
        balances := balances - {sender};
      } else {
        balances := balances[sender := newSender];
      }
      balances := balances[receiver := receiverBalance + amount];
      transferLog := transferLog + [Transferred(sender, receiver, amount)];
      fault := None;
    }

    method Balance(account: AccountId) returns (balance: u128)
      ensures balance == BalanceOf(State(), account)
    {
      balance := if account in balances then balances[account] else 0;
    }
  }

  // ---- transfers ----

  lemma Minted(owner: AccountId, supply: u128)
    ensures New(owner, supply) == ShimState(totalSupply := supply, balances := map[owner := supply], log := [])
  {
  }

  // The panic is that of the first check that fails.
  lemma FaultsExactly(s: ShimState, sender: AccountId, receiver: AccountId, amount: u128)
    ensures var r, enough := Transfer(s, sender, receiver, amount), amount <= BalanceOf(s, sender);
            var room := BalanceOf(s, receiver) + amount <= 340_282_366_920_938_463_463_374_607_431_768_211_455;
            && (r == Fail(ZeroAmount) <==> amount == 0)
            && (r == Fail(ToSelf) <==> amount > 0 && sender == receiver)
            && (r == Fail(InsufficientBalance) <==> amount > 0 && sender != receiver && !enough)
            && (r == Fail(ReceiverOverflow) <==> amount > 0 && sender != receiver && enough && !room)
            && (r.Ok? <==> amount > 0 && sender != receiver && enough && room)
  {
  }

  // A transfer moves the amount and appends itself to the log; nothing else changes, and no entry of zero stays.
  lemma TransferExactly(s: ShimState, sender: AccountId, receiver: AccountId, amount: u128)
    requires Transfer(s, sender, receiver, amount).Ok?
    ensures var s' := Transfer(s, sender, receiver, amount).s;
            && s'.totalSupply == s.totalSupply
            && s'.log == s.log + [Transferred(from := sender, to := receiver, amount := amount)]
            && BalanceOf(s', sender) == BalanceOf(s, sender) - amount
            && BalanceOf(s', receiver) == BalanceOf(s, receiver) + amount
            && (forall a :: a != sender && a != receiver ==> BalanceOf(s', a) == BalanceOf(s, a))
            && s'.balances.Keys
               == s.balances.Keys + {receiver} - if BalanceOf(s, sender) == amount then {sender} else {}
  {
  }

  // ---- conservation ----

  ghost function SumOver(accounts: set<AccountId>, m: map<AccountId, u128>): nat {
    if accounts == {} then 0 else
    var a :| a in accounts;
    Entry(m, a) + SumOver(accounts - {a}, m)
  }

  ghost function Total(m: map<AccountId, u128>): nat { SumOver(m.Keys, m) }

  lemma {:induction false} SumWithout(accounts: set<AccountId>, m: map<AccountId, u128>, a: AccountId)
    requires a in accounts
    ensures SumOver(accounts, m) == Entry(m, a) + SumOver(accounts - {a}, m)
  {
    var b :| b in accounts && SumOver(accounts, m) == Entry(m, b) + SumOver(accounts - {b}, m);
    if a != b {
      SumWithout(accounts - {b}, m, a);
      SumWithout(accounts - {a}, m, b);
      assert accounts - {a} - {b} == accounts - {b} - {a};
    }
  }

  lemma {:induction false} SumSame(accounts: set<AccountId>, m: map<AccountId, u128>, m': map<AccountId, u128>)
    requires forall a :: a in accounts ==> Entry(m, a) == Entry(m', a)
    ensures SumOver(accounts, m) == SumOver(accounts, m')
  {
    if accounts != {} {
      var a :| a in accounts;
      SumWithout(accounts, m, a);
      SumWithout(accounts, m', a);
      SumSame(accounts - {a}, m, m');
    }
  }

  lemma TotalSplit(m: map<AccountId, u128>, a: AccountId)
    ensures Total(m) == SumOver(m.Keys - {a}, m) + Entry(m, a)
  {
    if a in m {
      SumWithout(m.Keys, m, a);
    } else {
      assert m.Keys - {a} == m.Keys;
    }
  }

  // Changing one entry changes the total by the difference.
  lemma TotalChange(m: map<AccountId, u128>, m': map<AccountId, u128>, a: AccountId)
    requires m'.Keys - {a} == m.Keys - {a} && forall b :: b != a ==> Entry(m', b) == Entry(m, b)
    ensures Total(m') + Entry(m, a) == Total(m) + Entry(m', a)
  {
    TotalSplit(m, a);
    TotalSplit(m', a);
    SumSame(m.Keys - {a}, m, m');
  }

  // No two accounts hold more than the total.
  lemma TwoBalances(s: ShimState, a: AccountId, b: AccountId)
    requires a != b
    ensures BalanceOf(s, a) + BalanceOf(s, b) <= Total(s.balances)
  {
    TotalSplit(s.balances, a);
    if b in s.balances {
      SumWithout(s.balances.Keys - {a}, s.balances, b);
    }
  }

  ghost predicate Conserves(s: ShimState) { Total(s.balances) == s.totalSupply }

  lemma TransferConserves(s: ShimState, sender: AccountId, receiver: AccountId, amount: u128)
    requires Conserves(s) && Transfer(s, sender, receiver, amount).Ok?
    ensures Conserves(Transfer(s, sender, receiver, amount).s)
  {
    var debited := Credit(s.balances, sender, BalanceOf(s, sender) - amount);
    TotalChange(s.balances, debited, sender);
    TotalChange(debited, Transfer(s, sender, receiver, amount).s.balances, receiver);
  }

  // When balances add up to the supply, a receiver cannot overflow: a transfer succeeds if and only if its
  // amount is positive, its ends differ and its sender can pay.
  lemma SucceedsExactlyWhen(s: ShimState, sender: AccountId, receiver: AccountId, amount: u128)
    requires Conserves(s)
    ensures Transfer(s, sender, receiver, amount).Ok? <==> 0 < amount <= BalanceOf(s, sender) && sender != receiver
    ensures Transfer(s, sender, receiver, amount) != Fail(ReceiverOverflow)
  {
    if sender != receiver {
      TwoBalances(s, sender, receiver);
    }
  }

  // ---- replay ----

  // A history: who asked to move what to whom. Requests that panic leave no trace.
  function Request(s: ShimState, t: Transferred): ShimState {
    match Transfer(s, t.from, t.to, t.amount) case Ok(s') => s' case Fail(_) => s
  }

  function Replay(s: ShimState, requests: seq<Transferred>): ShimState {
    if |requests| == 0 then s else Request(Replay(s, requests[..|requests| - 1]), requests[|requests| - 1])
  }

  function Inflow(log: seq<Transferred>, a: AccountId): nat {
    if |log| == 0 then 0 else
    Inflow(log[..|log| - 1], a) + if log[|log| - 1].to == a then log[|log| - 1].amount else 0
  }

  function Outflow(log: seq<Transferred>, a: AccountId): nat {
    if |log| == 0 then 0 else
    Outflow(log[..|log| - 1], a) + if log[|log| - 1].from == a then log[|log| - 1].amount else 0
  }

  // The log accounts for every balance.
  ghost predicate LogAccounts(s: ShimState, owner: AccountId) {
    forall a: AccountId ::
      BalanceOf(s, a) == (if a == owner then s.totalSupply else 0) + Inflow(s.log, a) - Outflow(s.log, a)
  }

  lemma RequestAccounts(s: ShimState, owner: AccountId, t: Transferred)
    requires LogAccounts(s, owner)
    ensures LogAccounts(Request(s, t), owner)
  {
    if Transfer(s, t.from, t.to, t.amount).Ok? {
      var s' := Request(s, t);
      forall a: AccountId
        ensures BalanceOf(s', a) == (if a == owner then s'.totalSupply else 0) + Inflow(s'.log, a) - Outflow(s'.log, a)
      {
        assert s'.log[..|s.log|] == s.log;
        assert BalanceOf(s, a) == (if a == owner then s.totalSupply else 0) + Inflow(s.log, a) - Outflow(s.log, a);
      }
    }
  }

  // In every state a shim can reach, the balances add up to the supply that was minted, each balance is what
  // the owner was given plus what the log says came in less what it says went out, and no transfer can
  // overflow its receiver.
  lemma {:induction false} SupplyConserved(owner: AccountId, supply: u128, requests: seq<Transferred>)
    ensures var s := Replay(New(owner, supply), requests);
            && s.totalSupply == supply == Total(s.balances)
            && (forall a: AccountId ::
                  BalanceOf(s, a) == (if a == owner then supply else 0) + Inflow(s.log, a) - Outflow(s.log, a))
            && (forall from: AccountId, to: AccountId, amount: u128 ::
                  Transfer(s, from, to, amount) != Fail(ReceiverOverflow))
  {
    var s := Replay(New(owner, supply), requests);
    if |requests| == 0 {
      TotalSplit(s.balances, owner);
      assert s.balances.Keys - {owner} == {};
    } else {
      var prev, t := Replay(New(owner, supply), requests[..|requests| - 1]), requests[|requests| - 1];
      SupplyConserved(owner, supply, requests[..|requests| - 1]);
      RequestAccounts(prev, owner, t);
      if Transfer(prev, t.from, t.to, t.amount).Ok? {
        TransferConserves(prev, t.from, t.to, t.amount);
      }
    }
    forall from: AccountId, to: AccountId, amount: u128
      ensures Transfer(s, from, to, amount) != Fail(ReceiverOverflow)
    {
      SucceedsExactlyWhen(s, from, to, amount);
    }
  }

  // ---- removing zero entries is unobservable ----

  // A shim that keeps the sender's entry even when it drops to zero.
  function KeepingZeros(s: ShimState, t: Transferred): ShimState {
    if Transfer(s, t.from, t.to, t.amount).Fail? then s else
    ShimState(s.totalSupply,
              s.balances[t.from := BalanceOf(s, t.from) - t.amount][t.to := BalanceOf(s, t.to) + t.amount],
              s.log + [t])
  }

  function ReplayKeepingZeros(s: ShimState, requests: seq<Transferred>): ShimState {
    if |requests| == 0 then s
    else KeepingZeros(ReplayKeepingZeros(s, requests[..|requests| - 1]), requests[|requests| - 1])
  }

  // The views give the same answers.
  ghost predicate SameViews(s: ShimState, s': ShimState) {
    s.totalSupply == s'.totalSupply && s.log == s'.log && forall a: AccountId :: BalanceOf(s, a) == BalanceOf(s', a)
  }

  lemma SameViewsKept(s: ShimState, s': ShimState, t: Transferred)
    requires SameViews(s, s')
    ensures SameViews(Request(s, t), KeepingZeros(s', t))
  {
    forall a: AccountId ensures BalanceOf(Request(s, t), a) == BalanceOf(KeepingZeros(s', t), a) {
      assert BalanceOf(s, a) == BalanceOf(s', a);
    }
  }

  lemma {:induction false} ZeroEntriesUnobservable(s: ShimState, requests: seq<Transferred>)
    ensures SameViews(Replay(s, requests), ReplayKeepingZeros(s, requests))
  {
    if |requests| > 0 {
      var front := requests[..|requests| - 1];
      ZeroEntriesUnobservable(s, front);
      SameViewsKept(Replay(s, front), ReplayKeepingZeros(s, front), requests[|requests| - 1]);
    }
  }
}
