/** The sequence command of the client: the permutation it dispatches in, the batch it builds from it, and
    the check of the target's log afterwards. */
module Sequence {
  import opened Types
  import opened Nonces

  // ---- permutations of 0 .. n-1 ----

  predicate IsPermutation(s: seq<int>, n: nat) {
    && |s| == n
    && (forall k :: 0 <= k < n ==> 0 <= s[k] < n)
    && (forall j, k :: 0 <= j < k < n ==> s[j] != s[k])
  }

  function Identity(n: nat): seq<int> { seq(n, i => i) }

  lemma IdentityPermutes(n: nat)
    ensures IsPermutation(Identity(n), n)
  {
  }

  function Elements(s: seq<int>): set<int> { set k | 0 <= k < |s| :: s[k] }

  lemma {:induction false} ElementsSize(s: seq<int>)
    requires forall j, k :: 0 <= j < k < |s| ==> s[j] != s[k]
    ensures |Elements(s)| == |s|
  {
    if |s| > 0 {
      var front := s[..|s| - 1];
      ElementsSize(front);
      forall x | x in Elements(s) ensures x in Elements(front) || x == s[|s| - 1] {
        var k :| 0 <= k < |s| && s[k] == x;
        assert k < |front| ==> front[k] == x;
      }
      forall x | x in Elements(front) ensures x in Elements(s) {
        var k :| 0 <= k < |front| && front[k] == x;
        assert s[k] == x;
      }
      assert Elements(s) == Elements(front) + {s[|s| - 1]};
    }
  }

  lemma SubsetOfSameSize(a: set<int>, b: set<int>)
    requires a <= b && |a| == |b|
    ensures a == b
  {
    assert b == a + (b - a);
  }

  // A permutation reaches every index.
  lemma Onto(s: seq<int>, n: nat, v: int) returns (k: nat)
    requires IsPermutation(s, n) && 0 <= v < n
    ensures k < n && s[k] == v
  {
    var all := Identity(n);
    ElementsSize(s);
    ElementsSize(all);
    forall x | x in Elements(s) ensures x in Elements(all) {
      assert all[x] == x;
    }
    SubsetOfSameSize(Elements(s), Elements(all));
    assert all[v] in Elements(s);
    k :| 0 <= k < n && s[k] == v;
  }

  // ---- the shuffle ----

  function Swap(s: seq<int>, i: nat, j: nat): (r: seq<int>)
    requires i < |s| && j < |s|
    ensures |r| == |s| && r[i] == s[j] && r[j] == s[i]
    ensures forall k :: 0 <= k < |s| && k != i && k != j ==> r[k] == s[k]
  {
    seq(|s|, k requires 0 <= k < |s| => if k == i then s[j] else if k == j then s[i] else s[k])
  }

  // The random choices of a shuffle: at index i, one of 0 .. i.
  predicate Choices(picks: seq<nat>) {
    forall i :: 0 <= i < |picks| ==> picks[i] <= i
  }

  // What the loop makes of `s` from index `i` down to 1.
  function ShuffleFrom(s: seq<int>, i: nat, picks: seq<nat>): (r: seq<int>)
    requires |s| == |picks| && Choices(picks) && (i < |s| || i == 0)
    ensures |r| == |s|
    decreases i
  {
    if i == 0 then s else ShuffleFrom(Swap(s, i, picks[i]), i - 1, picks)
  }

  function Shuffle(picks: seq<nat>): (r: seq<int>)
    requires Choices(picks)
    ensures |r| == |picks|
  {
    ShuffleFrom(Identity(|picks|), if |picks| > 0 then |picks| - 1 else 0, picks)
  }

  lemma ShuffleStep(s: seq<int>, i: nat, picks: seq<nat>)
    requires |s| == |picks| && Choices(picks) && 0 < i < |s|
    ensures ShuffleFrom(s[i := s[picks[i]]][picks[i] := s[i]], i - 1, picks) == ShuffleFrom(s, i, picks)
  {
    assert s[i := s[picks[i]]][picks[i] := s[i]] == Swap(s, i, picks[i]);
  }

  // The loop of the client, on an array.
  method ShuffleInPlace(picks: seq<nat>) returns (arr: array<int>)
    requires Choices(picks)
    ensures fresh(arr) && arr[..] == Shuffle(picks)
  {
    arr := new int[|picks|](i => i);
    assert arr[..] == Identity(|picks|);
    if arr.Length == 0 {
      return;
    }
    var i := arr.Length - 1;
    while i > 0
      invariant 0 <= i < arr.Length == |picks|
      invariant ShuffleFrom(arr[..], i, picks) == Shuffle(picks)
    {
      var j := picks[i];
      ghost var was := arr[..];
      arr[i], arr[j] := arr[j], arr[i];
      ShuffleStep(was, i, picks);
      assert arr[..] == was[i := was[j]][j := was[i]];
      i := i - 1;
    }
  }

  lemma SwapPermutes(s: seq<int>, n: nat, i: nat, j: nat)
    requires IsPermutation(s, n) && i < n && j < n
    ensures IsPermutation(Swap(s, i, j), n)
  {
  }

  lemma {:induction false} ShuffleFromPermutes(s: seq<int>, n: nat, i: nat, picks: seq<nat>)
    requires IsPermutation(s, n) && |picks| == n && Choices(picks) && (i < n || i == 0)
    ensures IsPermutation(ShuffleFrom(s, i, picks), n)
    decreases i
  {
    if i > 0 {
      SwapPermutes(s, n, i, picks[i]);
      ShuffleFromPermutes(Swap(s, i, picks[i]), n, i - 1, picks);
    }
  }

  // From index `i` down, the loop does not touch what lies above.
  lemma {:induction false} ShuffleFromKeeps(s: seq<int>, i: nat, picks: seq<nat>, k: nat)
    requires |s| == |picks| && Choices(picks) && i < k < |s|
    ensures ShuffleFrom(s, i, picks)[k] == s[k]
    decreases i
  {
    if i > 0 {
      ShuffleFromKeeps(Swap(s, i, picks[i]), i - 1, picks, k);
    }
  }

  // The choice made at `i` decides what ends up at `i`.
  lemma {:induction false} ChoiceShows(s: seq<int>, i: nat, picks: seq<nat>)
    requires |s| == |picks| && Choices(picks) && 0 < i < |s|
    ensures ShuffleFrom(s, i, picks)[i] == s[picks[i]]
  {
    assert ShuffleFrom(s, i, picks) == ShuffleFrom(Swap(s, i, picks[i]), i - 1, picks);
    ShuffleFromKeeps(Swap(s, i, picks[i]), i - 1, picks, i);
  }

  lemma {:induction false} ShuffleFromInjective(s: seq<int>, n: nat, i: nat, picks: seq<nat>, picks': seq<nat>)
    requires IsPermutation(s, n) && (i < n || i == 0)
    requires |picks| == |picks'| == n && Choices(picks) && Choices(picks')
    requires ShuffleFrom(s, i, picks) == ShuffleFrom(s, i, picks')
    ensures forall k :: 0 < k <= i ==> picks[k] == picks'[k]
    decreases i
  {
    if i > 0 {
      ChoiceShows(s, i, picks);
      ChoiceShows(s, i, picks');
      assert picks[i] == picks'[i];
      SwapPermutes(s, n, i, picks[i]);
      ShuffleFromInjective(Swap(s, i, picks[i]), n, i - 1, picks, picks');
    }
  }

  lemma {:induction false} SameBelow(s: seq<int>, i: nat, picks: seq<nat>, picks': seq<nat>)
    requires |s| == |picks| == |picks'| && Choices(picks) && Choices(picks') && (i < |s| || i == 0)
    requires forall k :: 0 < k <= i ==> picks[k] == picks'[k]
    ensures ShuffleFrom(s, i, picks) == ShuffleFrom(s, i, picks')
    decreases i
  {
    if i > 0 {
      SameBelow(Swap(s, i, picks[i]), i - 1, picks, picks');
    }
  }

  // Choices under which the loop, from index `i` down, turns `s` into `t`.
  lemma {:induction false} ChoicesFor(s: seq<int>, t: seq<int>, n: nat, i: nat) returns (picks: seq<nat>)
    requires IsPermutation(s, n) && IsPermutation(t, n) && i < n
    requires forall k :: i < k < n ==> s[k] == t[k]
    ensures |picks| == n && Choices(picks)
    ensures ShuffleFrom(s, i, picks) == t
    decreases i
  {
    var j := Onto(s, n, t[i]);
    assert j <= i;
    if i == 0 {
      picks := seq(n, _ => 0);
      assert s == t;
    } else {
      SwapPermutes(s, n, i, j);
      var rest := ChoicesFor(Swap(s, i, j), t, n, i - 1);
      picks := rest[i := j];
      SameBelow(Swap(s, i, j), i - 1, rest, picks);
    }
  }

  // The shuffle is a bijection between choices and permutations: every result is a permutation, different
  // choices give different results, and every permutation is the result of some choices.
  lemma ShufflePermutes(picks: seq<nat>)
    requires Choices(picks)
    ensures IsPermutation(Shuffle(picks), |picks|)
  {
    ShuffleFromPermutes(Identity(|picks|), |picks|, if |picks| > 0 then |picks| - 1 else 0, picks);
  }

  lemma ShuffleInjective(picks: seq<nat>, picks': seq<nat>)
    requires Choices(picks) && Choices(picks') && Shuffle(picks) == Shuffle(picks')
    ensures picks == picks'
  {
    var n := |picks|;
    if n > 0 {
      ShuffleFromInjective(Identity(n), n, n - 1, picks, picks');
    }
  }

  lemma ShuffleSurjective(t: seq<int>, n: nat) returns (picks: seq<nat>)
    requires IsPermutation(t, n)
    ensures |picks| == n && Choices(picks) && Shuffle(picks) == t
  {
    picks := [];
    if n > 0 {
      picks := ChoicesFor(Identity(n), t, n, n - 1);
    }
  }

  // The last choice decides the last place. For instance, on three indices the choices 1 at index 2 and 0 at index 1
  // first swap the places 2 and 1, then 1 and 0.
  lemma ShuffleSpelled(picks: seq<nat>)
    requires Choices(picks)
    ensures |picks| > 0 ==> Shuffle(picks)[|picks| - 1] == picks[|picks| - 1]
    ensures Choices([0, 0, 1]) && Shuffle([0, 0, 1]) == [2, 0, 1]
  {
    if |picks| > 1 {
      ChoiceShows(Identity(|picks|), |picks| - 1, picks);
    }
    var choices := [0, 0, 1];
    assert Identity(3) == [0, 1, 2] && Swap([0, 1, 2], 2, 1) == [0, 2, 1] && Swap([0, 2, 1], 1, 0) == [2, 0, 1];
    assert ShuffleFrom([0, 2, 1], 1, choices) == ShuffleFrom([2, 0, 1], 0, choices);
  }

  // ---- the validator ----

  predicate Ascending(s: seq<int>) {
    forall j, k :: 0 <= j < k < |s| ==> s[j] <= s[k]
  }

  function Insert(s: seq<int>, x: int): (r: seq<int>)
    ensures multiset(r) == multiset(s) + multiset{x}
  {
    if |s| == 0 then [x]
    else if x <= s[0] then [x] + s
    else
      assert s == [s[0]] + s[1..];
      [s[0]] + Insert(s[1..], x)
  }

  // A sorted copy, as Array.prototype.sort makes it with a numeric comparator.
  function Sorted(s: seq<int>): (r: seq<int>)
    ensures multiset(r) == multiset(s)
  {
    if |s| == 0 then [] else
    assert s == s[..|s| - 1] + [s[|s| - 1]];
    Insert(Sorted(s[..|s| - 1]), s[|s| - 1])
  }

  lemma {:induction false} InsertAscending(s: seq<int>, x: int)
    requires Ascending(s)
    ensures Ascending(Insert(s, x))
  {
    if |s| > 0 && x > s[0] {
      var rest := Insert(s[1..], x);
      InsertAscending(s[1..], x);
      forall k | 0 <= k < |rest| ensures s[0] <= rest[k] {
        assert rest[k] in multiset(s[1..]) + multiset{x};
      }
    }
  }

  lemma {:induction false} SortedAscending(s: seq<int>)
    ensures Ascending(Sorted(s)) && |Sorted(s)| == |s|
  {
    if |s| > 0 {
      SortedAscending(s[..|s| - 1]);
      InsertAscending(Sorted(s[..|s| - 1]), s[|s| - 1]);
    }
    assert |multiset(Sorted(s))| == |multiset(s)|;
  }

  lemma {:induction false} OnceEach(s: seq<int>, x: int)
    requires forall j, k :: 0 <= j < k < |s| ==> s[j] != s[k]
    ensures multiset(s)[x] <= 1
  {
    if |s| > 0 {
      var front := s[..|s| - 1];
      OnceEach(front, x);
      assert s == front + [s[|s| - 1]];
      assert s[|s| - 1] !in front;
    }
  }

  lemma TwiceIsTwo(s: seq<int>, j: nat, k: nat)
    requires j < k < |s| && s[j] == s[k]
    ensures multiset(s)[s[j]] >= 2
  {
    assert s == s[..k] + [s[k]] + s[k + 1..];
    assert s[..k][j] == s[j];
  }

  lemma SameElementsPermute(s: seq<int>, t: seq<int>, n: nat)
    requires IsPermutation(s, n) && multiset(s) == multiset(t)
    ensures IsPermutation(t, n)
  {
    assert |t| == |multiset(t)| == |multiset(s)| == |s|;
    forall k | 0 <= k < n ensures 0 <= t[k] < n {
      assert t[k] in multiset(s);
    }
    forall j, k | 0 <= j < k < n ensures t[j] != t[k] {
      if t[j] == t[k] {
        TwiceIsTwo(t, j, k);
        OnceEach(s, t[j]);
      }
    }
  }

  lemma {:induction false} AscendingAbove(s: seq<int>, n: nat, k: nat)
    requires IsPermutation(s, n) && Ascending(s) && k < n
    ensures k <= s[k]
  {
    if k > 0 {
      AscendingAbove(s, n, k - 1);
    }
  }

  lemma {:induction false} AscendingBelow(s: seq<int>, n: nat, k: nat)
    requires IsPermutation(s, n) && Ascending(s) && k < n
    ensures s[k] <= k
    decreases n - k
  {
    if k < n - 1 {
      AscendingBelow(s, n, k + 1);
    }
  }

  // Sorting a list gives 0 .. n-1 if and only if the list is a permutation of it.
  lemma SortsToIdentity(s: seq<int>, n: nat)
    ensures Sorted(s) == Identity(n) <==> IsPermutation(s, n)
  {
    SortedAscending(s);
    if Sorted(s) == Identity(n) {
      SameElementsPermute(Identity(n), s, n);
    }
    if IsPermutation(s, n) {
      SameElementsPermute(s, Sorted(s), n);
      forall k | 0 <= k < n ensures Sorted(s)[k] == k {
        AscendingAbove(Sorted(s), n, k);
        AscendingBelow(Sorted(s), n, k);
      }
    }
  }

  datatype SpecError = WrongLength | NotAPermutation

  datatype Permutation = Accepted(order: seq<int>) | Refused(error: SpecError)

  // Index by index, `sorted` is 0 .. n-1.
  method CountsUp(sorted: seq<int>, n: nat) returns (ok: bool)
    requires |sorted| == n
    ensures ok <==> sorted == Identity(n)
  {
    for i := 0 to n
      invariant forall k :: 0 <= k < i ==> sorted[k] == k
    {
      if sorted[i] != i {
        assert sorted[i] != Identity(n)[i];
        return false;
      }
    }
    assert sorted == Identity(n);
    ok := true;
  }

  // The check of a list given by the user: its length, then a sorted copy against 0 .. n-1.
  method Validate(ints: seq<int>, n: nat) returns (r: Permutation)
    ensures r == if |ints| != n then Refused(WrongLength)
                 else if IsPermutation(ints, n) then Accepted(ints)
                 else Refused(NotAPermutation)
  {
    if |ints| != n {
      return Refused(WrongLength);
    }
    SortedAscending(ints);
    SortsToIdentity(ints, n);
    var ok := CountsUp(Sorted(ints), n);
    r := if ok then Accepted(ints) else Refused(NotAPermutation);
  }

  datatype Spec = InOrder | Random(picks: seq<nat>) | Given(ints: seq<int>)

  // Every spec that is accepted gives a permutation: the identity, the shuffle of the random choices, or the list that
  // was given, which is otherwise refused for its length or for its content.
  method ParsePermutation(spec: Spec, n: nat) returns (r: Permutation)
    requires spec.Random? ==> |spec.picks| == n && Choices(spec.picks)
    ensures r.Accepted? ==> IsPermutation(r.order, n)
    ensures match spec
            case InOrder => r == Accepted(Identity(n))
            case Random(picks) => r == Accepted(Shuffle(picks))
            case Given(ints) =>
              r == if |ints| != n then Refused(WrongLength)
                   else if IsPermutation(ints, n) then Accepted(ints)
                   else Refused(NotAPermutation)
  {
    match spec
    case InOrder => r := Accepted(Identity(n));
    case Random(picks) =>
      var arr := ShuffleInPlace(picks);
      ShufflePermutes(picks);
      r := Accepted(arr[..]);
    case Given(ints) => r := Validate(ints, n);
  }

  // ---- the batch ----

  function BatchIds(order: seq<int>, submitted: seq<u64>): (ids: seq<u64>)
    requires IsPermutation(order, |submitted|)
    ensures |ids| == |submitted| && forall k :: 0 <= k < |ids| ==> ids[k] == submitted[order[k]]
  {
    seq(|order|, k requires 0 <= k < |order| => submitted[order[k]])
  }

  // A permutation of distinct ids repeats none and leaves none out.
  lemma BatchIsEachOnce(order: seq<int>, submitted: seq<u64>)
    requires IsPermutation(order, |submitted|)
    requires forall j, k :: 0 <= j < k < |submitted| ==> submitted[j] != submitted[k]
    ensures forall j, k :: 0 <= j < k < |submitted| ==> BatchIds(order, submitted)[j] != BatchIds(order, submitted)[k]
    ensures forall i :: 0 <= i < |submitted| ==> submitted[i] in BatchIds(order, submitted)
  {
    var ids := BatchIds(order, submitted);
    forall i | 0 <= i < |submitted| ensures submitted[i] in ids {
      var k := Onto(order, |submitted|, i);
      assert ids[k] == submitted[i];
    }
  }

  // ---- what the targets should have logged ----

  function ValueOf(i: nat): nat { 11 + i * 11 }

  function AmountOf(i: nat): nat { 100 + i * 17 }

  predicate Indices(order: seq<int>) {
    forall k :: 0 <= k < |order| ==> 0 <= order[k]
  }

  function ValuesFor(order: seq<int>): (r: seq<nat>)
    requires Indices(order)
    ensures |r| == |order| && forall k :: 0 <= k < |r| ==> r[k] == ValueOf(order[k])
  {
    seq(|order|, k requires 0 <= k < |order| => ValueOf(order[k]))
  }

  function AmountsFor(order: seq<int>): (r: seq<nat>)
    requires Indices(order)
    ensures |r| == |order| && forall k :: 0 <= k < |r| ==> r[k] == AmountOf(order[k])
  {
    seq(|order|, k requires 0 <= k < |order| => AmountOf(order[k]))
  }

  // The values are 11, 22, 33, ... and the amounts 100, 117, 134, ..., each at the place its index has in the order.
  lemma ExpectedSpelled(order: seq<int>)
    requires Indices(order)
    ensures |ValuesFor(order)| == |AmountsFor(order)| == |order|
    ensures forall k :: 0 <= k < |order| ==>
              ValuesFor(order)[k] == 11 * (order[k] + 1) && AmountsFor(order)[k] == 100 + 17 * order[k]
    ensures Indices([2, 0, 1]) && ValuesFor([2, 0, 1]) == [33, 11, 22] && AmountsFor([2, 0, 1]) == [134, 100, 117]
  {
  }

  // The logs of different orders differ.
  lemma OrdersShow(order: seq<int>, order': seq<int>)
    requires Indices(order) && Indices(order')
    ensures ValuesFor(order) == ValuesFor(order') <==> order == order'
    ensures AmountsFor(order) == AmountsFor(order') <==> order == order'
  {
    if ValuesFor(order) == ValuesFor(order') {
      forall k | 0 <= k < |order| ensures order[k] == order'[k] {
        assert ValueOf(order[k]) == ValuesFor(order')[k];
      }
    }
    if AmountsFor(order) == AmountsFor(order') {
      forall k | 0 <= k < |order| ensures order[k] == order'[k] {
        assert AmountOf(order[k]) == AmountsFor(order')[k];
      }
    }
  }

  // Array.prototype.slice with one argument: a negative start counts from the end.
  function SliceFrom<T>(s: seq<T>, start: int): seq<T> {
    var from := if start >= 0 then start else if |s| + start >= 0 then |s| + start else 0;
    if from <= |s| then s[from..] else []
  }

  // The last `n` entries are `expected`, if there are that many.
  ghost predicate EndsWith<T>(s: seq<T>, expected: seq<T>) {
    |expected| <= |s| && s[|s| - |expected|..] == expected
  }

  // Slicing off the tail and comparing it is that, also when the log is too short and the start is negative.
  lemma SliceComparesTail<T>(s: seq<T>, expected: seq<T>)
    ensures SliceFrom(s, |s| - |expected|) == expected <==> EndsWith(s, expected)
  {
  }

  // The views return numbers as decimal strings, and the client compares strings.
  function Decimals(s: seq<nat>): (r: seq<Bytes>)
    ensures |r| == |s| && forall k :: 0 <= k < |r| ==> r[k] == Decimal(s[k])
  {
    seq(|s|, k requires 0 <= k < |s| => Decimal(s[k]))
  }

  lemma DecimalsInjective(s: seq<nat>, t: seq<nat>)
    ensures Decimals(s) == Decimals(t) <==> s == t
  {
    if Decimals(s) == Decimals(t) {
      forall k | 0 <= k < |s| ensures s[k] == t[k] {
        assert Decimals(t)[k] == Decimal(s[k]);
        DecimalInjective(s[k], t[k]);
      }
    }
  }
}
