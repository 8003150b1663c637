/** The replay key `sender|nonce` and its injectivity. */
module Nonces {
  import opened Types

  const BAR: byte := 124
  const DIGIT_ZERO: byte := 48

  // Decimal rendering of an unsigned integer, as ASCII digits.
  function Decimal(n: nat): (r: Bytes)
    ensures |r| > 0
    ensures forall k :: 0 <= k < |r| ==> DIGIT_ZERO <= r[k] < DIGIT_ZERO + 10
  {
    if n < 10 then [DIGIT_ZERO + n] else Decimal(n / 10) + [DIGIT_ZERO + n % 10]
  }

  function NonceKey(sender: Bytes, nonce: nat): Bytes {
    sender + [BAR] + Decimal(nonce)
  }

  lemma {:induction false} DecimalInjective(m: nat, n: nat)
    requires Decimal(m) == Decimal(n)
    ensures m == n
  {
    var s := Decimal(m);
    assert m >= 10 <==> |s| > 1;
    assert n >= 10 <==> |s| > 1;
    if m >= 10 && n >= 10 {
      assert s[..|s| - 1] == Decimal(m / 10) && s[..|s| - 1] == Decimal(n / 10);
      DecimalInjective(m / 10, n / 10);
      assert s[|s| - 1] == DIGIT_ZERO + m % 10 == DIGIT_ZERO + n % 10;
    } else {
      assert s[0] == DIGIT_ZERO + m == DIGIT_ZERO + n;
    }
  }

  // The number a row of decimal digits stands for.
  function Value(s: Bytes): int {
    if |s| == 0 then 0 else 10 * Value(s[..|s| - 1]) + (s[|s| - 1] as int - 48)
  }

  // The rendering is the one row of digits without a leading zero that stands for the number; zero is `0`.
  lemma {:induction false} DecimalReads(n: nat)
    ensures Value(Decimal(n)) == n
    ensures forall k :: 0 <= k < |Decimal(n)| ==> 48 <= Decimal(n)[k] <= 57
    ensures Decimal(n)[0] == 48 <==> n == 0
  {
    var s := Decimal(n);
    if n >= 10 {
      DecimalReads(n / 10);
      assert s[..|s| - 1] == Decimal(n / 10);
      assert s[0] == Decimal(n / 10)[0];
    } else {
      assert Value(s[..0]) == 0;
    }
  }

  // For instance `ab|42`.
  lemma KeySpelled()
    ensures NonceKey([97, 98], 42) == [97, 98, 124, 52, 50]
  {
    assert Decimal(42) == Decimal(4) + [50];
  }

  // The last bar of a key sits right before its digits.
  lemma LastBar(sender: Bytes, nonce: nat)
    ensures NonceKey(sender, nonce)[|sender|] == BAR
    ensures forall k :: |sender| < k < |NonceKey(sender, nonce)| ==> NonceKey(sender, nonce)[k] != BAR
  {
  }

  lemma NonceKeyInjective(sender: Bytes, nonce: nat, sender': Bytes, nonce': nat)
    requires NonceKey(sender, nonce) == NonceKey(sender', nonce')
    ensures sender == sender' && nonce == nonce'
  {
    LastBar(sender, nonce);
    LastBar(sender', nonce');
    var key := NonceKey(sender, nonce);
    assert sender == key[..|sender|] && sender' == key[..|sender'|];
    assert Decimal(nonce) == key[|sender| + 1..] && Decimal(nonce') == key[|sender'| + 1..];
    DecimalInjective(nonce, nonce');
  }
}
