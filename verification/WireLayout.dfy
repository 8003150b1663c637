/** The wire format in literal bytes: what each tag byte means, how integers are laid out, what becomes of a message
    that is cut short, and one signed delegate spelled out byte by byte. */
module WireLayout {
  import opened Types
  import opened Borsh
  import opened Nep366

  // ---- integers ----

  lemma {:induction false} Times(d: nat, a: nat, b: nat)
    requires a < b
    ensures d * a + d <= d * b
  {
    assert d * b == d * (b - 1) + d;
    if a + 1 < b {
      Times(d, a, b - 1);
    }
  }

  lemma Quotient(x: nat, d: nat, q: nat, r: nat)
    requires x == d * q + r && r < d
    ensures x / d == q
  {
    if x / d < q {
      Times(d, x / d, q);
    } else if q < x / d {
      Times(d, q, x / d);
    }
  }

  lemma DivideTwice(x: nat, p: nat)
    requires 0 < p
    ensures x / 256 / p == x / (256 * p)
  {
    var q, r := x / 256 / p, x / 256 % p;
    assert x / 256 == p * q + r;
    assert (256 * p) * q == 256 * (p * q);
    Quotient(x, 256 * p, q, 256 * r + x % 256);
  }

  // Byte `k` of a little-endian integer is its digit `k` to the base 256.
  lemma {:induction false} LittleEndian(x: nat, n: nat, k: nat)
    requires x < Pow256(n) && k < n
    ensures Le(x, n)[k] == x / Pow256(k) % 256
  {
    if k > 0 {
      LittleEndian(x / 256, n - 1, k - 1);
      DivideTwice(x, Pow256(k - 1));
    }
  }

  // A small integer is its byte and zeros.
  lemma {:induction false} LeOfByte(x: byte, n: nat)
    requires 0 < n
    ensures x < Pow256(n) && Le(x, n) == [x] + Zeros(n - 1)
  {
    assert Pow256(n) == 256 * Pow256(n - 1);
    if 1 < n {
      LeOfByte(0, n - 1);
      assert [0] + Zeros(n - 2) == Zeros(n - 1);
    }
  }

  // ---- tags ----

  // An action begins with byte 2 and goes on as a function call; byte 8 is a nested delegate, any other byte an
  // action that is not supported.
  lemma ActionTags(host: Host, tag: byte, b: Bytes)
    ensures ParseAction(host, []) == Err(UnexpectedEof)
    ensures var p := ParseAction(host, [tag] + b);
            if tag == 2 then
              match ParseCall(host, b) case Ok(c, rest) => p == Ok(FunctionCall(c), rest) case Err(e) => p == Err(e)
            else p == Err(if tag == 8 then NestedDelegate else UnsupportedAction(tag))
  {
    assert ([tag] + b)[1..] == b;
  }

  // A key is byte 0 and 32 bytes, a signature byte 0 and 64 bytes.
  lemma KeyTags(tag: byte, b: Bytes)
    ensures ParseKey([]) == Err(UnexpectedEof) && ParseSignature([]) == Err(UnexpectedEof)
    ensures ParseKey([tag] + b)
         == if tag != 0 then Err(BadKeyTag(tag)) else if |b| < 32 then Err(UnexpectedEof) else Ok(b[..32], b[32..])
    ensures ParseSignature([tag] + b)
         == if tag != 0 then Err(BadSignatureTag(tag))
            else if |b| < 64 then Err(UnexpectedEof) else Ok(b[..64], b[64..])
  {
    assert ([tag] + b)[1..] == b;
  }

  // A string is four bytes of length and its bytes, which must be UTF-8; an account id must also be a valid one.
  lemma StringChecks(host: Host, s: Str, rest: Bytes)
    ensures ParseBytes(SerBytes(s) + rest) == Ok(s, rest)
    ensures ParseString(host, SerBytes(s) + rest) == if host.validUtf8(s) then Ok(s, rest) else Err(InvalidUtf8)
    ensures ParseAccountId(host, SerBytes(s) + rest)
         == if !host.validUtf8(s) then Err(InvalidUtf8)
            else if !host.validAccountId(s) then Err(InvalidAccountId) else Ok(s, rest)
  {
    BytesInverse(s, rest);
  }

  // ---- messages cut short ----

  // Cutting `p + q` cuts `p`, or keeps it and cuts `q`.
  lemma CutSum(p: Bytes, q: Bytes, n: nat)
    requires n <= |p + q|
    ensures (p + q)[..n] == if n < |p| then p[..n] else p + q[..n - |p|]
  {
  }

  lemma IntsCut(b: Bytes)
    ensures |b| < 4 ==> ParseU32(b) == Err(UnexpectedEof)
    ensures |b| < 8 ==> ParseU64(b) == Err(UnexpectedEof)
    ensures |b| < 16 ==> ParseU128(b) == Err(UnexpectedEof)
  {
  }

  lemma BytesCut(s: Str, n: nat)
    requires n < |SerBytes(s)|
    ensures ParseBytes(SerBytes(s)[..n]) == Err(UnexpectedEof)
  {
    CutSum(SerU32(|s|), s, n);
    if n >= 4 {
      assert SerBytes(s)[..n] == SerU32(|s|) + s[..n - 4];
      IntsInverse(|s|, 0, 0, s[..n - 4]);
    }
  }

  lemma AccountCut(host: Host, a: AccountId, n: nat)
    requires n < |SerBytes(a)|
    ensures ParseAccountId(host, SerBytes(a)[..n]) == Err(UnexpectedEof)
  {
    BytesCut(a, n);
  }

  lemma KeyCut(k: Key32, s: Sig64, n: nat)
    ensures n < |SerKey(k)| ==> ParseKey(SerKey(k)[..n]) == Err(UnexpectedEof)
    ensures n < |SerSignature(s)| ==> ParseSignature(SerSignature(s)[..n]) == Err(UnexpectedEof)
  {
    if n == 0 {
      KeyTags(0, []);
      assert SerKey(k)[..0] == [] && SerSignature(s)[..0] == [];
    } else {
      CutSum([0], k, if n < 33 then n else 33);
      CutSum([0], s, if n < 65 then n else 65);
      if n < 33 { KeyTags(0, k[..n - 1]); assert SerKey(k)[..n] == [0] + k[..n - 1]; }
      if n < 65 { KeyTags(0, s[..n - 1]); assert SerSignature(s)[..n] == [0] + s[..n - 1]; }
    }
  }

  // The arguments, the gas and the deposit of a call, cut short.
  lemma CallRestCut(c: FunctionCallAction, n: nat)
    requires n < |SerBytes(c.args)| + 24
    ensures var p := ParseBytes((SerBytes(c.args) + (SerU64(c.gas) + SerU128(c.deposit)))[..n]);
            || p == Err(UnexpectedEof)
            || (p.Ok? && var q := ParseU64(p.rest);
                q == Err(UnexpectedEof) || (q.Ok? && ParseU128(q.rest) == Err(UnexpectedEof)))
  {
    var args, gas, deposit := SerBytes(c.args), SerU64(c.gas), SerU128(c.deposit);
    CutSum(args, gas + deposit, n);
    if n < |args| {
      BytesCut(c.args, n);
    } else {
      var m := n - |args|;
      BytesInverse(c.args, (gas + deposit)[..m]);
      CutSum(gas, deposit, m);
      if m < 8 {
        IntsCut((gas + deposit)[..m]);
      } else {
        IntsInverse(0, c.gas, 0, deposit[..m - 8]);
        IntsCut(deposit[..m - 8]);
      }
    }
  }

  lemma CallCut(host: Host, c: FunctionCallAction, n: nat)
    requires host.validUtf8(c.methodName) && n < |SerCall(c)|
    ensures ParseCall(host, SerCall(c)[..n]) == Err(UnexpectedEof)
  {
    var name, others := SerBytes(c.methodName), SerBytes(c.args) + (SerU64(c.gas) + SerU128(c.deposit));
    assert SerCall(c) == name + others;
    CutSum(name, others, n);
    if n < |name| {
      BytesCut(c.methodName, n);
    } else {
      StringChecks(host, c.methodName, others[..n - |name|]);
      CallRestCut(c, n - |name|);
    }
  }

  lemma ActionCut(host: Host, a: NonDelegateAction, n: nat)
    requires host.validUtf8(a.call.methodName) && n < |SerAction(a)|
    ensures ParseAction(host, SerAction(a)[..n]) == Err(UnexpectedEof)
  {
    if 0 < n {
      CutSum([2], SerCall(a.call), n);
      assert SerAction(a)[..n] == [2] + SerCall(a.call)[..n - 1];
      CallCut(host, a.call, n - 1);
      ActionTags(host, 2, SerCall(a.call)[..n - 1]);
    }
  }

  lemma {:induction false} VecCut<T(!new)>(ser: T -> Bytes, parse: Bytes -> Parsed<T>, s: seq<T>, n: nat)
    requires forall k, more :: 0 <= k < |s| ==> parse(ser(s[k]) + more) == Ok(s[k], more)
    requires forall k, m :: 0 <= k < |s| && 0 <= m < |ser(s[k])| ==> parse(ser(s[k])[..m]) == Err(UnexpectedEof)
    requires n < |SerVec(ser, s)|
    ensures ParseVec(parse, |s|, SerVec(ser, s)[..n]) == Err(UnexpectedEof)
  {
    var first, others := ser(s[0]), SerVec(ser, s[1..]);
    CutSum(first, others, n);
    if |first| <= n {
      assert parse(ser(s[0]) + others[..n - |first|]) == Ok(s[0], others[..n - |first|]);
      forall k, more | 0 <= k < |s[1..]| ensures parse(ser(s[1..][k]) + more) == Ok(s[1..][k], more) {
        assert s[1..][k] == s[k + 1];
      }
      forall k, m | 0 <= k < |s[1..]| && 0 <= m < |ser(s[1..][k])|
        ensures parse(ser(s[1..][k])[..m]) == Err(UnexpectedEof)
      {
        assert s[1..][k] == s[k + 1];
      }
      VecCut(ser, parse, s[1..], n - |first|);
    }
  }

  lemma ActionsCut(host: Host, s: seq<NonDelegateAction>, n: nat)
    requires ActionsWellTyped(host, s) && n < |SerActions(s)|
    ensures ParseActions(host, |s|, SerActions(s)[..n]) == Err(UnexpectedEof)
  {
    var parse := ActionParser(host);
    forall k, more | 0 <= k < |s| ensures parse(SerAction(s[k]) + more) == Ok(s[k], more) {
      ActionInverse(host, s[k], more);
    }
    forall k, m | 0 <= k < |s| && 0 <= m < |SerAction(s[k])| ensures parse(SerAction(s[k])[..m]) == Err(UnexpectedEof) {
      ActionCut(host, s[k], m);
    }
    VecCut(SerAction, parse, s, n);
  }

  // The nonce, the height and the key of a delegate.
  function SerTail(d: DelegateAction): Bytes {
    SerU64(d.nonce) + (SerU64(d.maxBlockHeight) + SerKey(d.publicKey))
  }

  ghost predicate TailEof(b: Bytes) {
    var p := ParseU64(b);
    || p == Err(UnexpectedEof)
    || (p.Ok? && var q := ParseU64(p.rest);
        q == Err(UnexpectedEof) || (q.Ok? && ParseKey(q.rest) == Err(UnexpectedEof)))
  }

  lemma TailCut(d: DelegateAction, n: nat)
    requires n < |SerTail(d)|
    ensures TailEof(SerTail(d)[..n])
  {
    var nonce, height, key := SerU64(d.nonce), SerU64(d.maxBlockHeight), SerKey(d.publicKey);
    CutSum(nonce, height + key, n);
    if n < 8 {
      IntsCut(SerTail(d)[..n]);
    } else {
      var m := n - 8;
      IntsInverse(0, d.nonce, 0, (height + key)[..m]);
      CutSum(height, key, m);
      if m < 8 {
        IntsCut((height + key)[..m]);
      } else {
        IntsInverse(0, d.maxBlockHeight, 0, key[..m - 8]);
        KeyCut(d.publicKey, Zeros(64), m - 8);
      }
    }
  }

  // The number of actions, the actions and what follows.
  function SerMiddle(d: DelegateAction): Bytes {
    SerU32(|d.actions|) + (SerActions(d.actions) + SerTail(d))
  }

  ghost predicate MiddleEof(host: Host, b: Bytes) {
    var p := ParseU32(b);
    || p == Err(UnexpectedEof)
    || (p.Ok? && var q := ParseActions(host, p.value, p.rest);
        q == Err(UnexpectedEof) || (q.Ok? && TailEof(q.rest)))
  }

  lemma ActionsTailCut(host: Host, d: DelegateAction, n: nat)
    requires WellTyped(host, d) && n < |SerActions(d.actions) + SerTail(d)|
    ensures var q := ParseActions(host, |d.actions|, (SerActions(d.actions) + SerTail(d))[..n]);
            q == Err(UnexpectedEof) || (q.Ok? && TailEof(q.rest))
  {
    var actions := SerActions(d.actions);
    CutSum(actions, SerTail(d), n);
    if n < |actions| {
      ActionsCut(host, d.actions, n);
    } else {
      ActionsInverse(host, d.actions, SerTail(d)[..n - |actions|]);
      TailCut(d, n - |actions|);
    }
  }

  lemma MiddleCut(host: Host, d: DelegateAction, n: nat)
    requires WellTyped(host, d) && n < |SerMiddle(d)|
    ensures MiddleEof(host, SerMiddle(d)[..n])
  {
    var others := SerActions(d.actions) + SerTail(d);
    CutSum(SerU32(|d.actions|), others, n);
    if n < 4 {
      IntsCut(SerMiddle(d)[..n]);
    } else {
      IntsInverse(|d.actions|, 0, 0, others[..n - 4]);
      ActionsTailCut(host, d, n - 4);
    }
  }

  lemma DelegateParts(d: DelegateAction)
    ensures SerDelegate(d) == SerBytes(d.senderId) + (SerBytes(d.receiverId) + SerMiddle(d))
  {
    Regroup7(SerBytes(d.senderId), SerBytes(d.receiverId), SerU32(|d.actions|), SerActions(d.actions),
             SerU64(d.nonce), SerU64(d.maxBlockHeight), SerKey(d.publicKey), []);
    assert SerKey(d.publicKey) + [] == SerKey(d.publicKey) && SerDelegate(d) + [] == SerDelegate(d);
  }

  lemma MiddleFails(host: Host, b: Bytes, sender: AccountId, receiver: AccountId, b1: Bytes, b2: Bytes)
    requires ParseAccountId(host, b) == Ok(sender, b1) && ParseAccountId(host, b1) == Ok(receiver, b2)
    requires MiddleEof(host, b2)
    ensures ParseDelegate(host, b) == Err(UnexpectedEof)
  {
  }

  lemma DelegateCut(host: Host, d: DelegateAction, n: nat)
    requires WellTyped(host, d) && n < |SerDelegate(d)|
    ensures ParseDelegate(host, SerDelegate(d)[..n]) == Err(UnexpectedEof)
  {
    var sender, receiver, middle := SerBytes(d.senderId), SerBytes(d.receiverId), SerMiddle(d);
    DelegateParts(d);
    CutSum(sender, receiver + middle, n);
    if n < |sender| {
      AccountCut(host, d.senderId, n);
    } else {
      var m := n - |sender|;
      var b1 := (receiver + middle)[..m];
      AccountInverse(host, d.senderId, b1);
      CutSum(receiver, middle, m);
      if m < |receiver| {
        AccountCut(host, d.receiverId, m);
      } else {
        AccountInverse(host, d.receiverId, middle[..m - |receiver|]);
        MiddleCut(host, d, m - |receiver|);
        MiddleFails(host, SerDelegate(d)[..n], d.senderId, d.receiverId, b1, middle[..m - |receiver|]);
      }
    }
  }

  lemma SignedCut(host: Host, x: SignedDelegateAction, n: nat)
    requires WellTyped(host, x.delegateAction) && n < |SerSigned(x)|
    ensures ParseSigned(host, SerSigned(x)[..n]) == Err(UnexpectedEof)
  {
    var d, sig := SerDelegate(x.delegateAction), SerSignature(x.signature);
    CutSum(d, sig, n);
    if n < |d| {
      DelegateCut(host, x.delegateAction, n);
    } else {
      DelegateInverse(host, x.delegateAction, sig[..n - |d|]);
      KeyCut(Zeros(32), x.signature, n - |d|);
    }
  }

  // However a message is cut short, it is refused as too short, and for nothing else.
  lemma Truncated(host: Host, b: Bytes, n: nat)
    requires TryFromSlice(host, b).Ok? && n < |b|
    ensures TryFromSlice(host, b[..n]) == Err(UnexpectedEof)
  {
    Canonical(host, b);
    var x := TryFromSlice(host, b).value;
    SignedCut(host, x, n);
  }

  // ---- messages with a wrong tag ----

  lemma {:induction false} VecFails<T(!new)>(
      ser: T -> Bytes, parse: Bytes -> Parsed<T>, s: seq<T>, count: nat, b: Bytes)
    requires forall k, more :: 0 <= k < |s| ==> parse(ser(s[k]) + more) == Ok(s[k], more)
    requires |s| < count && parse(b).Err?
    ensures ParseVec(parse, count, SerVec(ser, s) + b) == Err(parse(b).error)
  {
    if |s| == 0 {
      assert SerVec(ser, s) + b == b;
    } else {
      assert SerVec(ser, s) + b == ser(s[0]) + (SerVec(ser, s[1..]) + b);
      forall k, more | 0 <= k < |s[1..]| ensures parse(ser(s[1..][k]) + more) == Ok(s[1..][k], more) {
        assert s[1..][k] == s[k + 1];
      }
      VecFails(ser, parse, s[1..], count - 1, b);
    }
  }

  lemma ActionsFail(host: Host, s: seq<NonDelegateAction>, count: nat, b: Bytes)
    requires ActionsWellTyped(host, s) && |s| < count && ParseAction(host, b).Err?
    ensures ParseActions(host, count, SerActions(s) + b) == Err(ParseAction(host, b).error)
  {
    var parse := ActionParser(host);
    forall k, more | 0 <= k < |s| ensures parse(SerAction(s[k]) + more) == Ok(s[k], more) {
      ActionInverse(host, s[k], more);
    }
    VecFails(SerAction, parse, s, count, b);
  }

  // The accounts and the number of actions of a message, before its actions.
  function SerHead(d: DelegateAction, count: u32): Bytes {
    SerBytes(d.senderId) + (SerBytes(d.receiverId) + SerU32(count))
  }

  lemma HeadThenActions(host: Host, d: DelegateAction, count: u32, b: Bytes)
    requires AccountWellTyped(host, d.senderId) && AccountWellTyped(host, d.receiverId)
    requires ParseActions(host, count, b).Err?
    ensures TryFromSlice(host, SerHead(d, count) + b) == Err(ParseActions(host, count, b).error)
  {
    var sender, receiver := SerBytes(d.senderId), SerBytes(d.receiverId);
    assert SerHead(d, count) + b == sender + (receiver + (SerU32(count) + b));
    AccountInverse(host, d.senderId, receiver + (SerU32(count) + b));
    AccountInverse(host, d.receiverId, SerU32(count) + b);
    IntsInverse(count, 0, 0, b);
  }

  // A message is refused for its first action whose tag is not 2, whatever follows: as nested when the tag is 8, as
  // unsupported otherwise.
  lemma WrongActionRefused(host: Host, d: DelegateAction, count: u32, tag: byte, more: Bytes)
    requires WellTyped(host, d) && |d.actions| < count && tag != 2
    ensures TryFromSlice(host, SerHead(d, count) + (SerActions(d.actions) + ([tag] + more)))
         == Err(if tag == 8 then NestedDelegate else UnsupportedAction(tag))
  {
    ActionTags(host, tag, more);
    ActionsFail(host, d.actions, count, [tag] + more);
    HeadThenActions(host, d, count, SerActions(d.actions) + ([tag] + more));
  }

  // What stands before the key.
  function SerFront(d: DelegateAction): Bytes {
    SerBytes(d.senderId) + SerBytes(d.receiverId) + SerU32(|d.actions|) + SerActions(d.actions)
    + SerU64(d.nonce) + SerU64(d.maxBlockHeight)
  }

  lemma FrontThenKey(host: Host, d: DelegateAction, b: Bytes)
    requires WellTyped(host, d) && ParseKey(b).Err?
    ensures ParseDelegate(host, SerFront(d) + b) == Err(ParseKey(b).error)
  {
    var b5 := SerU64(d.maxBlockHeight) + b;
    var b4 := SerU64(d.nonce) + b5;
    var b3 := SerActions(d.actions) + b4;
    var b2 := SerU32(|d.actions|) + b3;
    var b1 := SerBytes(d.receiverId) + b2;
    Regroup7(SerBytes(d.senderId), SerBytes(d.receiverId), SerU32(|d.actions|), SerActions(d.actions),
             SerU64(d.nonce), SerU64(d.maxBlockHeight), [], b);
    assert SerFront(d) + [] == SerFront(d) && [] + b == b;
    AccountInverse(host, d.senderId, b1);
    AccountInverse(host, d.receiverId, b2);
    IntsInverse(|d.actions|, 0, 0, b3);
    ActionsInverse(host, d.actions, b4);
    IntsInverse(0, d.nonce, 0, b5);
    IntsInverse(0, d.maxBlockHeight, 0, b);
  }

  // So is one whose key or whose signature has a tag other than 0.
  lemma WrongKeyRefused(host: Host, d: DelegateAction, tag: byte, more: Bytes)
    requires WellTyped(host, d) && tag != 0
    ensures TryFromSlice(host, SerFront(d) + ([tag] + more)) == Err(BadKeyTag(tag))
    ensures TryFromSlice(host, SerDelegate(d) + ([tag] + more)) == Err(BadSignatureTag(tag))
  {
    KeyTags(tag, more);
    FrontThenKey(host, d, [tag] + more);
    DelegateInverse(host, d, [tag] + more);
  }

  // ---- the whole message ----

  lemma Join(a: Bytes, b: Bytes, c: Bytes)
    ensures a + (b + c) == a + b + c
  {
  }

  lemma JoinCall(x: Bytes, t: Bytes, m: Bytes, name: Bytes, n: Bytes, args: Bytes, gas: Bytes, deposit: Bytes)
    ensures x + (t + (m + name + (n + args) + gas + deposit)) == x + t + m + name + n + args + gas + deposit
  {
    Join(m + name, n, args);
    Join(x + t, m, name);
    assert x + (t + (m + name + n + args + gas + deposit)) == x + t + (m + name + n + args + gas + deposit);
    assert x + t + (m + name + n + args + gas + deposit) == x + t + m + name + n + args + gas + deposit;
  }

  lemma OneAction(d: DelegateAction)
    requires |d.actions| == 1
    ensures SerActions(d.actions) == SerAction(d.actions[0])
  {
    assert d.actions[1..] == [];
    assert SerActions(d.actions) == SerAction(d.actions[0]) + SerVec(SerAction, []);
  }

  // The bytes of a message with one action, in order: the sender, the receiver, the number of actions, tag 2, the
  // method, the arguments, the gas, the deposit, the nonce, the height, the key and the signature. Strings follow
  // their length; integers are little-endian, as LittleEndian says.
  lemma Layout(x: SignedDelegateAction)
    requires |x.delegateAction.actions| == 1
    ensures var d, c := x.delegateAction, x.delegateAction.actions[0].call;
            SerSigned(x)
            == Le(|d.senderId|, 4) + d.senderId + Le(|d.receiverId|, 4) + d.receiverId + Le(1, 4)
               + [2] + Le(|c.methodName|, 4) + c.methodName + Le(|c.args|, 4) + c.args
               + Le(c.gas, 8) + Le(c.deposit, 16)
               + Le(d.nonce, 8) + Le(d.maxBlockHeight, 8) + [0] + d.publicKey + [0] + x.signature
  {
    var d, c := x.delegateAction, x.delegateAction.actions[0].call;
    var accounts := Le(|d.senderId|, 4) + d.senderId + Le(|d.receiverId|, 4) + d.receiverId + Le(1, 4);
    Join(Le(|d.senderId|, 4) + d.senderId, Le(|d.receiverId|, 4), d.receiverId);
    OneAction(d);
    JoinCall(accounts, [2], Le(|c.methodName|, 4), c.methodName, Le(|c.args|, 4), c.args, Le(c.gas, 8),
             Le(c.deposit, 16));
    var front := accounts + SerAction(d.actions[0]) + Le(d.nonce, 8) + Le(d.maxBlockHeight, 8);
    Join(front, [0], d.publicKey);
    Join(front + [0] + d.publicKey, [0], x.signature);
  }

  // ---- one message, byte by byte ----

  const ALICE: AccountId := [97, 108, 105, 99, 101, 46, 116, 101, 115, 116, 110, 101, 116]   // alice.testnet
  const REGISTER: AccountId := [114, 101, 103, 105, 115, 116, 101, 114, 46, 116, 101, 115, 116, 110, 101, 116]
  const SET: Str := [115, 101, 116]                                                               // set
  const ARGS: Str := [123, 34, 118, 97, 108, 117, 101, 34, 58, 34, 52, 50, 34, 125]      // {"value":"42"}

  // A call of `set` with 50 Tgas and one yoctoNEAR, signed by `key` up to block 10^9 under nonce 42.
  function Sample(key: Key32, sig: Sig64): SignedDelegateAction {
    var fc := FunctionCallAction(methodName := SET, args := ARGS, gas := 50_000_000_000_000, deposit := 1);
    SignedDelegateAction(
      DelegateAction(senderId := ALICE, receiverId := REGISTER, actions := [FunctionCall(fc)], nonce := 42,
                     maxBlockHeight := 1_000_000_000, publicKey := key),
      sig)
  }

  function SampleBytes(key: Key32, sig: Sig64): Bytes {
    [13, 0, 0, 0] + ALICE + [16, 0, 0, 0] + REGISTER + [1, 0, 0, 0]
    + [2] + [3, 0, 0, 0] + SET + [14, 0, 0, 0] + ARGS
    + [0, 32, 61, 136, 121, 45, 0, 0] + [1, 0, 0, 0, 0, 0, 0, 0, 0, 0, 0, 0, 0, 0, 0, 0]
    + [42, 0, 0, 0, 0, 0, 0, 0] + [0, 202, 154, 59, 0, 0, 0, 0] + [0] + key + [0] + sig
  }

  lemma SampleLengths()
    ensures Le(1, 4) == [1, 0, 0, 0] && Le(3, 4) == [3, 0, 0, 0] && Le(13, 4) == [13, 0, 0, 0]
    ensures Le(14, 4) == [14, 0, 0, 0] && Le(16, 4) == [16, 0, 0, 0]
  {
  }

  lemma SampleNonce()
    ensures Le(42, 8) == [42, 0, 0, 0, 0, 0, 0, 0]
  {
    LeOfByte(42, 8);
  }

  lemma SampleHeight()
    ensures Le(1_000_000_000, 8) == [0, 202, 154, 59, 0, 0, 0, 0]
  {
  }

  lemma SampleGas()
    ensures Le(50_000_000_000_000, 8) == [0, 32, 61, 136, 121, 45, 0, 0]
  {
  }

  lemma SampleDeposit()
    ensures Le(1, 16) == [1, 0, 0, 0, 0, 0, 0, 0, 0, 0, 0, 0, 0, 0, 0, 0]
  {
    LeOfByte(1, 16);
  }

  lemma SampleLayout(key: Key32, sig: Sig64)
    ensures SerSigned(Sample(key, sig)) == SampleBytes(key, sig)
  {
    Layout(Sample(key, sig));
    SampleLengths();
    SampleNonce();
    SampleHeight();
    SampleGas();
    SampleDeposit();
  }

  // Those bytes, and no others, are that message.
  lemma SampleSpelled(host: Host, key: Key32, sig: Sig64)
    requires WellTyped(host, Sample(key, sig).delegateAction)
    ensures SerSigned(Sample(key, sig)) == SampleBytes(key, sig)
    ensures TryFromSlice(host, SampleBytes(key, sig)) == Ok(Sample(key, sig), [])
  {
    SampleLayout(key, sig);
    RoundTrip(host, Sample(key, sig));
  }
}
