/** The NEP-366 delegate wire format (printer and parser) and the NEP-461 signed-message preimage. */
module Nep366 {
  import opened Types
  import opened Borsh

  const MIN_ON_CHAIN_DISCRIMINANT: u32 := 0x4000_0000
  const NEP_366_DELEGATE_DISCRIMINANT: u32 := MIN_ON_CHAIN_DISCRIMINANT + 366
  const ACTION_TAG_FUNCTION_CALL: byte := 2
  const ACTION_TAG_DELEGATE: byte := 8
  const SIGNATURE_WIRE_LENGTH: nat := 65

  type Key32 = b: Bytes | |b| == 32 witness Zeros(32)
  type Sig64 = b: Bytes | |b| == 64 witness Zeros(64)

  datatype FunctionCallAction = FunctionCallAction(methodName: Str, args: Str, gas: u64, deposit: u128)
  datatype NonDelegateAction = FunctionCall(call: FunctionCallAction)
  type Actions = s: seq<NonDelegateAction> | |s| < 0x1_0000_0000

  datatype DelegateAction = DelegateAction(
    senderId: AccountId,
    receiverId: AccountId,
    actions: Actions,
    nonce: u64,
    maxBlockHeight: u64,
    publicKey: Key32
  )
  datatype SignedDelegateAction = SignedDelegateAction(delegateAction: DelegateAction, signature: Sig64)

  // What the Rust types guarantee of any value: strings are UTF-8, account ids are validated.

  predicate ActionsWellTyped(host: Host, s: seq<NonDelegateAction>) {
    forall k :: 0 <= k < |s| ==> host.validUtf8(s[k].call.methodName)
  }

  predicate AccountWellTyped(host: Host, a: AccountId) {
    host.validUtf8(a) && host.validAccountId(a)
  }

  predicate WellTyped(host: Host, d: DelegateAction) {
    AccountWellTyped(host, d.senderId) && AccountWellTyped(host, d.receiverId) && ActionsWellTyped(host, d.actions)
  }

  // ---- printer ----

  function SerKey(k: Key32): Bytes { SerU8(0) + k }

  function SerSignature(s: Sig64): Bytes { SerU8(0) + s }

  function SerCall(c: FunctionCallAction): Bytes {
    SerBytes(c.methodName) + SerBytes(c.args) + SerU64(c.gas) + SerU128(c.deposit)
  }

  function SerAction(a: NonDelegateAction): Bytes {
    SerU8(ACTION_TAG_FUNCTION_CALL) + SerCall(a.call)
  }

  function SerActions(s: seq<NonDelegateAction>): Bytes {
    SerVec(SerAction, s)
  }

  function SerDelegate(d: DelegateAction): Bytes {
    SerBytes(d.senderId) + SerBytes(d.receiverId) + SerU32(|d.actions|) + SerActions(d.actions)
    + SerU64(d.nonce) + SerU64(d.maxBlockHeight) + SerKey(d.publicKey)
  }

  function SerSigned(x: SignedDelegateAction): Bytes {
    SerDelegate(x.delegateAction) + SerSignature(x.signature)
  }

  // ---- parser ----

  function ParseKey(b: Bytes): Parsed<Key32> {
    match ParseU8(b)
    case Err(e) => Err(e)
    case Ok(tag, rest) =>
      if tag != 0 then Err(BadKeyTag(tag))
      else match ReadExact(rest, 32) case Err(e) => Err(e) case Ok(k, rest') => Ok(k, rest')
  }

  function ParseSignature(b: Bytes): Parsed<Sig64> {
    match ParseU8(b)
    case Err(e) => Err(e)
    case Ok(tag, rest) =>
      if tag != 0 then Err(BadSignatureTag(tag))
      else match ReadExact(rest, 64) case Err(e) => Err(e) case Ok(s, rest') => Ok(s, rest')
  }

  function ParseCall(host: Host, b: Bytes): Parsed<FunctionCallAction> {
    match ParseString(host, b)
    case Err(e) => Err(e)
    case Ok(name, b1) =>
      match ParseBytes(b1)
      case Err(e) => Err(e)
      case Ok(args, b2) =>
        match ParseU64(b2)
        case Err(e) => Err(e)
        case Ok(gas, b3) =>
          match ParseU128(b3)
          case Err(e) => Err(e)
          case Ok(deposit, b4) => Ok(FunctionCallAction(name, args, gas, deposit), b4)
  }

  function ParseAction(host: Host, b: Bytes): Parsed<NonDelegateAction> {
    match ParseU8(b)
    case Err(e) => Err(e)
    case Ok(tag, rest) =>
      if tag == ACTION_TAG_FUNCTION_CALL then
        match ParseCall(host, rest) case Err(e) => Err(e) case Ok(c, rest') => Ok(FunctionCall(c), rest')
      else if tag == ACTION_TAG_DELEGATE then Err(NestedDelegate)
      else Err(UnsupportedAction(tag))
  }

  function ActionParser(host: Host): Bytes -> Parsed<NonDelegateAction> {
    (b: Bytes) => ParseAction(host, b)
  }

  function ParseActions(host: Host, count: nat, b: Bytes): (r: Parsed<seq<NonDelegateAction>>)
    ensures r.Ok? ==> |r.value| == count
  {
    ParseVec(ActionParser(host), count, b)
  }

  function ParseDelegate(host: Host, b: Bytes): Parsed<DelegateAction> {
    match ParseAccountId(host, b)
    case Err(e) => Err(e)
    case Ok(sender, b1) =>
      match ParseAccountId(host, b1)
      case Err(e) => Err(e)
      case Ok(receiver, b2) =>
        match ParseU32(b2)
        case Err(e) => Err(e)
        case Ok(count, b3) =>
          match ParseActions(host, count, b3)
          case Err(e) => Err(e)
          case Ok(actions, b4) =>
            match ParseU64(b4)
            case Err(e) => Err(e)
            case Ok(nonce, b5) =>
              match ParseU64(b5)
              case Err(e) => Err(e)
              case Ok(height, b6) =>
                match ParseKey(b6)
                case Err(e) => Err(e)
                case Ok(key, b7) => Ok(DelegateAction(sender, receiver, actions, nonce, height, key), b7)
  }

  function ParseSigned(host: Host, b: Bytes): Parsed<SignedDelegateAction> {
    match ParseDelegate(host, b)
    case Err(e) => Err(e)
    case Ok(d, b1) =>
      match ParseSignature(b1)
      case Err(e) => Err(e)
      case Ok(s, b2) => Ok(SignedDelegateAction(d, s), b2)
  }

  // The contract's entry point: the whole input must be consumed.
  function TryFromSlice(host: Host, b: Bytes): Parsed<SignedDelegateAction> {
    match ParseSigned(host, b)
    case Err(e) => Err(e)
    case Ok(x, rest) => if |rest| > 0 then Err(NotAllBytesRead) else Ok(x, rest)
  }

  // ---- signing ----

  function Preimage(d: DelegateAction): Bytes {
    SerU32(NEP_366_DELEGATE_DISCRIMINANT) + SerDelegate(d)
  }

  predicate Verify(host: Host, x: SignedDelegateAction) {
    host.ed25519Verify(x.signature, host.sha256(Preimage(x.delegateAction)), x.delegateAction.publicKey)
  }

  function SingleFunctionCall(d: DelegateAction): Option<FunctionCallAction> {
    if |d.actions| != 1 then None else Some(d.actions[0].call)
  }

  // Concatenations regrouped, stated on plain byte strings so that no parser is unfolded.
  lemma Regroup4(a: Bytes, b: Bytes, c: Bytes, d: Bytes, rest: Bytes)
    ensures a + (b + (c + (d + rest))) == a + b + c + d + rest
  {
  }

  lemma Regroup7(a: Bytes, b: Bytes, c: Bytes, d: Bytes, e: Bytes, f: Bytes, g: Bytes, rest: Bytes)
    ensures a + (b + (c + (d + (e + (f + (g + rest)))))) == a + b + c + d + e + f + g + rest
  {
    Regroup4(d, e, f, g, rest);
    Regroup4(a, b, c, d + e + f + g, rest);
    assert a + b + c + (d + e + f + g) == a + b + c + d + e + f + g;
  }

  // ---- parse undoes print ----

  lemma KeyInverse(k: Key32, s: Sig64, rest: Bytes)
    ensures ParseKey(SerKey(k) + rest) == Ok(k, rest)
    ensures ParseSignature(SerSignature(s) + rest) == Ok(s, rest)
  {
    assert (SerKey(k) + rest)[1..] == k + rest;
    assert (k + rest)[..32] == k && (k + rest)[32..] == rest;
    assert (SerSignature(s) + rest)[1..] == s + rest;
    assert (s + rest)[..64] == s && (s + rest)[64..] == rest;
  }

  lemma ActionInverse(host: Host, a: NonDelegateAction, rest: Bytes)
    requires host.validUtf8(a.call.methodName)
    ensures ParseAction(host, SerAction(a) + rest) == Ok(a, rest)
  {
    var c := a.call;
    var b4 := rest;
    var b3 := SerU128(c.deposit) + b4;
    var b2 := SerU64(c.gas) + b3;
    var b1 := SerBytes(c.args) + b2;
    var b0 := SerBytes(c.methodName) + b1;
    Regroup4(SerBytes(c.methodName), SerBytes(c.args), SerU64(c.gas), SerU128(c.deposit), rest);
    assert (SerAction(a) + rest)[1..] == b0;
    BytesInverse(c.methodName, b1);
    BytesInverse(c.args, b2);
    IntsInverse(0, c.gas, 0, b3);
    IntsInverse(0, 0, c.deposit, b4);
  }

  lemma ActionsInverse(host: Host, s: seq<NonDelegateAction>, rest: Bytes)
    requires ActionsWellTyped(host, s)
    ensures ParseActions(host, |s|, SerActions(s) + rest) == Ok(s, rest)
  {
    var parse := ActionParser(host);
    forall k, more | 0 <= k < |s| ensures parse(SerAction(s[k]) + more) == Ok(s[k], more) {
      ActionInverse(host, s[k], more);
    }
    VecInverse(SerAction, parse, s, rest);
  }

  lemma AccountInverse(host: Host, a: AccountId, rest: Bytes)
    requires AccountWellTyped(host, a)
    ensures ParseAccountId(host, SerBytes(a) + rest) == Ok(a, rest)
  {
    BytesInverse(a, rest);
  }

  lemma DelegateInverse(host: Host, d: DelegateAction, rest: Bytes)
    requires WellTyped(host, d)
    ensures ParseDelegate(host, SerDelegate(d) + rest) == Ok(d, rest)
  {
    var b6 := SerKey(d.publicKey) + rest;
    var b5 := SerU64(d.maxBlockHeight) + b6;
    var b4 := SerU64(d.nonce) + b5;
    var b3 := SerActions(d.actions) + b4;
    var b2 := SerU32(|d.actions|) + b3;
    var b1 := SerBytes(d.receiverId) + b2;
    Regroup7(SerBytes(d.senderId), SerBytes(d.receiverId), SerU32(|d.actions|), SerActions(d.actions),
             SerU64(d.nonce), SerU64(d.maxBlockHeight), SerKey(d.publicKey), rest);
    AccountInverse(host, d.senderId, b1);
    AccountInverse(host, d.receiverId, b2);
    IntsInverse(|d.actions|, 0, 0, b3);
    ActionsInverse(host, d.actions, b4);
    IntsInverse(0, d.nonce, 0, b5);
    IntsInverse(0, d.maxBlockHeight, 0, b6);
    KeyInverse(d.publicKey, Zeros(64), rest);
  }

  // Reading back a printed signed delegate yields it and leaves exactly what followed.
  lemma SignedInverse(host: Host, x: SignedDelegateAction, rest: Bytes)
    requires WellTyped(host, x.delegateAction)
    ensures ParseSigned(host, SerSigned(x) + rest) == Ok(x, rest)
  {
    assert SerSigned(x) + rest == SerDelegate(x.delegateAction) + (SerSignature(x.signature) + rest);
    DelegateInverse(host, x.delegateAction, SerSignature(x.signature) + rest);
    KeyInverse(Zeros(32), x.signature, rest);
  }

  lemma RoundTrip(host: Host, x: SignedDelegateAction)
    requires WellTyped(host, x.delegateAction)
    ensures TryFromSlice(host, SerSigned(x)) == Ok(x, [])
  {
    SignedInverse(host, x, []);
    assert SerSigned(x) + [] == SerSigned(x);
  }

  // ---- print undoes parse ----

  lemma KeyCanonical(b: Bytes)
    ensures ParseKey(b).Ok? ==> b == SerKey(ParseKey(b).value) + ParseKey(b).rest
    ensures ParseSignature(b).Ok? ==> b == SerSignature(ParseSignature(b).value) + ParseSignature(b).rest
  {
    if |b| >= 1 {
      assert b == [b[0]] + b[1..];
      if |b| >= 33 { assert b[1..] == b[1..][..32] + b[1..][32..]; }
      if |b| >= 65 { assert b[1..] == b[1..][..64] + b[1..][64..]; }
    }
  }

  lemma CallCanonical(host: Host, b: Bytes)
    requires ParseCall(host, b).Ok?
    ensures b == SerCall(ParseCall(host, b).value) + ParseCall(host, b).rest
    ensures host.validUtf8(ParseCall(host, b).value.methodName)
  {
    var c := ParseCall(host, b).value;
    var rest := ParseCall(host, b).rest;
    var b1 := ParseBytes(b).rest;
    var b2 := ParseBytes(b1).rest;
    var b3 := ParseU64(b2).rest;
    BytesCanonical(b);
    BytesCanonical(b1);
    IntsCanonical(b2);
    IntsCanonical(b3);
    Regroup4(SerBytes(c.methodName), SerBytes(c.args), SerU64(c.gas), SerU128(c.deposit), rest);
  }

  lemma Tagged(b: Bytes, ser: Bytes, rest: Bytes)
    requires |b| > 0 && b[1..] == ser + rest
    ensures b == [b[0]] + ser + rest
  {
    assert b == [b[0]] + b[1..];
  }

  lemma ActionCanonical(host: Host, b: Bytes)
    requires ParseAction(host, b).Ok?
    ensures b == SerAction(ParseAction(host, b).value) + ParseAction(host, b).rest
    ensures host.validUtf8(ParseAction(host, b).value.call.methodName)
  {
    CallCanonical(host, b[1..]);
    assert ParseAction(host, b) == Ok(FunctionCall(ParseCall(host, b[1..]).value), ParseCall(host, b[1..]).rest);
    Tagged(b, SerCall(ParseCall(host, b[1..]).value), ParseCall(host, b[1..]).rest);
  }

  lemma ActionsCanonical(host: Host, count: nat, b: Bytes)
    requires ParseActions(host, count, b).Ok?
    ensures b == SerActions(ParseActions(host, count, b).value) + ParseActions(host, count, b).rest
    ensures ActionsWellTyped(host, ParseActions(host, count, b).value)
  {
    var parse := ActionParser(host);
    var valid := (a: NonDelegateAction) => host.validUtf8(a.call.methodName);
    assert forall b :: parse(b).Ok? ==> b == SerAction(parse(b).value) + parse(b).rest && valid(parse(b).value) by {
      forall b | parse(b).Ok? ensures b == SerAction(parse(b).value) + parse(b).rest && valid(parse(b).value) {
        ActionCanonical(host, b);
      }
    }
    VecCanonical(SerAction, parse, valid, count, b);
    var s := ParseActions(host, count, b).value;
    assert forall k :: 0 <= k < |s| ==> s[k] in s;
  }

  lemma AccountCanonical(host: Host, b: Bytes)
    requires ParseAccountId(host, b).Ok?
    ensures b == SerBytes(ParseAccountId(host, b).value) + ParseAccountId(host, b).rest
    ensures AccountWellTyped(host, ParseAccountId(host, b).value)
  {
    BytesCanonical(b);
  }

  lemma DelegateCanonical(host: Host, b: Bytes)
    requires ParseDelegate(host, b).Ok?
    ensures b == SerDelegate(ParseDelegate(host, b).value) + ParseDelegate(host, b).rest
    ensures WellTyped(host, ParseDelegate(host, b).value)
  {
    var d := ParseDelegate(host, b).value;
    var b1 := ParseAccountId(host, b).rest;
    var b2 := ParseAccountId(host, b1).rest;
    var b3 := ParseU32(b2).rest;
    var b4 := ParseActions(host, ParseU32(b2).value, b3).rest;
    var b5 := ParseU64(b4).rest;
    var b6 := ParseU64(b5).rest;
    AccountCanonical(host, b);
    AccountCanonical(host, b1);
    IntsCanonical(b2);
    ActionsCanonical(host, ParseU32(b2).value, b3);
    IntsCanonical(b4);
    IntsCanonical(b5);
    KeyCanonical(b6);
    Regroup7(SerBytes(d.senderId), SerBytes(d.receiverId), SerU32(|d.actions|), SerActions(d.actions),
             SerU64(d.nonce), SerU64(d.maxBlockHeight), SerKey(d.publicKey), ParseKey(b6).rest);
  }

  lemma Canonical(host: Host, b: Bytes)
    requires TryFromSlice(host, b).Ok?
    ensures SerSigned(TryFromSlice(host, b).value) == b
    ensures WellTyped(host, TryFromSlice(host, b).value.delegateAction)
  {
    DelegateCanonical(host, b);
    var b1 := ParseDelegate(host, b).rest;
    KeyCanonical(b1);
    var x := TryFromSlice(host, b).value;
    assert SerSignature(x.signature) + [] == SerSignature(x.signature);
  }

  lemma MoreIsLeftOver(host: Host, x: SignedDelegateAction, more: Bytes)
    requires WellTyped(host, x.delegateAction) && |more| > 0
    ensures TryFromSlice(host, SerSigned(x) + more) == Err(NotAllBytesRead)
  {
    SignedInverse(host, x, more);
  }

  // No accepted input is a proper prefix of another: every extension of one, hence every truncation, is rejected.
  lemma PrefixFree(host: Host, b: Bytes, longer: Bytes)
    requires TryFromSlice(host, b).Ok? && b < longer
    ensures TryFromSlice(host, longer) == Err(NotAllBytesRead)
  {
    Canonical(host, b);
    assert longer == b + longer[|b|..];
    MoreIsLeftOver(host, TryFromSlice(host, b).value, longer[|b|..]);
  }

  // The accepted inputs are exactly the printed well-typed values.
  lemma AcceptsExactly(host: Host, b: Bytes)
    ensures TryFromSlice(host, b).Ok?
       <==> exists x: SignedDelegateAction :: WellTyped(host, x.delegateAction) && b == SerSigned(x)
  {
    if TryFromSlice(host, b).Ok? {
      Canonical(host, b);
    }
    forall x: SignedDelegateAction | WellTyped(host, x.delegateAction) && b == SerSigned(x)
      ensures TryFromSlice(host, b).Ok?
    {
      RoundTrip(host, x);
    }
  }

  // ---- the hash covers the bytes that were sent ----

  lemma DiscriminantBytes()
    ensures SerU32(NEP_366_DELEGATE_DISCRIMINANT) == [0x6E, 0x01, 0x00, 0x40]
  {
    var d := NEP_366_DELEGATE_DISCRIMINANT;
    Widths();
    assert d == 0x4000_016E && d % 256 == 0x6E && d / 256 == 0x40_0001;
    assert Le(0x40_0001, 3) == [0x01] + Le(0x4000, 2);
    assert Le(0x4000, 2) == [0x00] + Le(0x40, 1);
    assert Le(0x40, 1) == [0x40] + Le(0, 0);
  }

  lemma HashCoversInput(host: Host, b: Bytes)
    requires TryFromSlice(host, b).Ok?
    ensures |b| >= SIGNATURE_WIRE_LENGTH
    ensures Preimage(TryFromSlice(host, b).value.delegateAction)
            == [0x6E, 0x01, 0x00, 0x40] + b[..|b| - SIGNATURE_WIRE_LENGTH]
  {
    Canonical(host, b);
    DiscriminantBytes();
    var x := TryFromSlice(host, b).value;
    assert b[..|SerDelegate(x.delegateAction)|] == SerDelegate(x.delegateAction);
  }

  lemma SuffixOf(p: Bytes, q: Bytes)
    ensures (p + q)[|p + q| - |q|..] == q
  {
  }

  // The signature is what the accepted bytes end with.
  lemma SignatureEnds(host: Host, b: Bytes)
    requires TryFromSlice(host, b).Ok?
    ensures |b| >= 64 && b[|b| - 64..] == TryFromSlice(host, b).value.signature
  {
    Canonical(host, b);
    var x := TryFromSlice(host, b).value;
    var front := SerDelegate(x.delegateAction) + SerU8(0);
    assert b == front + x.signature;
    SuffixOf(front, x.signature);
  }

  lemma PreimageInjective(host: Host, d: DelegateAction, d': DelegateAction)
    requires WellTyped(host, d) && WellTyped(host, d')
    requires Preimage(d) == Preimage(d')
    ensures d == d'
  {
    assert Preimage(d)[4..] == SerDelegate(d) && Preimage(d')[4..] == SerDelegate(d');
    assert SerDelegate(d) + [] == SerDelegate(d) && SerDelegate(d') + [] == SerDelegate(d');
    DelegateInverse(host, d, []);
    DelegateInverse(host, d', []);
  }

  // NEP-461 domain separation: an ordinary transaction starts with its signer's account id, at most
  // 64 bytes long, and so is never the preimage of a delegate.
  lemma DomainSeparation(d: DelegateAction, signer: AccountId, more: Bytes)
    requires |signer| <= 64
    ensures Preimage(d) != SerBytes(signer) + more
  {
    if Preimage(d) == SerBytes(signer) + more {
      assert Preimage(d)[..4] == SerU32(NEP_366_DELEGATE_DISCRIMINANT);
      assert (SerBytes(signer) + more)[..4] == SerU32(|signer|);
      LeInverse(|signer|, 4);
      LeInverse(NEP_366_DELEGATE_DISCRIMINANT, 4);
      assert false;
    }
  }
}
