/** The serializers and deserializers as the contract runs them: appending to a buffer and advancing
    a reader, each proved against the printer and parser functions of Nep366. */
module Nep366Io {
  import opened Types
  import opened Borsh
  import opened Nep366

  datatype Result<+T> = Success(value: T) | Failure(error: ParseError) {
    predicate IsFailure() { Failure? }

    function PropagateFailure<U>(): Result<U>
      requires Failure?
    {
      Failure(error)
    }

    function Extract(): T
      requires Success?
    {
      value
    }
  }

  // A method's result and the reader it leaves behind are those of the parser function.
  ghost predicate Agrees<T>(p: Parsed<T>, r: Result<T>, rest: Bytes) {
    match p
    case Ok(x, tail) => r == Success(x) && rest == tail
    case Err(e) => r == Failure(e)
  }

  lemma Append4(start: Bytes, a: Bytes, b: Bytes, c: Bytes, d: Bytes)
    ensures start + a + b + c + d == start + (a + b + c + d)
  {
    Regroup4(a, b, c, d, []);
    Regroup4(start, a, b, c, d);
  }

  lemma Append7(start: Bytes, a: Bytes, b: Bytes, c: Bytes, d: Bytes, e: Bytes, f: Bytes, g: Bytes)
    ensures start + a + b + c + d + e + f + g == start + (a + b + c + d + e + f + g)
  {
    Regroup7(a, b, c, d, e, f, g, []);
    Regroup7(start, a, b, c, d, e, f, g);
  }

  lemma SerActionsAt(before: Bytes, s: seq<NonDelegateAction>, i: nat)
    requires i < |s|
    ensures before + SerActions(s[i..]) == before + SerAction(s[i]) + SerActions(s[i + 1..])
  {
    assert s[i..][1..] == s[i + 1..];
  }

  class Writer {
    var buf: Bytes

    constructor ()
      ensures buf == []
    {
      buf := [];
    }

    method WriteAll(b: Bytes)
      modifies this
      ensures buf == old(buf) + b
    {
      buf := buf + b;
    }

    method SerializeKey(k: Key32)
      modifies this
      ensures buf == old(buf) + SerKey(k)
    {
      WriteAll(SerU8(0));
      WriteAll(k);
    }

    method SerializeSignature(s: Sig64)
      modifies this
      ensures buf == old(buf) + SerSignature(s)
    {
      WriteAll(SerU8(0));
      WriteAll(s);
    }

    method SerializeCall(c: FunctionCallAction)
      modifies this
      ensures buf == old(buf) + SerCall(c)
    {
      WriteAll(SerBytes(c.methodName));
      WriteAll(SerBytes(c.args));
      WriteAll(SerU64(c.gas));
      WriteAll(SerU128(c.deposit));
      Append4(old(buf), SerBytes(c.methodName), SerBytes(c.args), SerU64(c.gas), SerU128(c.deposit));
    }

    method SerializeAction(a: NonDelegateAction)
      modifies this
      ensures buf == old(buf) + SerAction(a)
    {
      WriteAll(SerU8(ACTION_TAG_FUNCTION_CALL));
      SerializeCall(a.call);
    }

    method SerializeActions(s: seq<NonDelegateAction>)
      modifies this
      ensures buf == old(buf) + SerActions(s)
    {
      var i := 0;
      while i < |s|
        invariant 0 <= i <= |s|
        invariant buf + SerActions(s[i..]) == old(buf) + SerActions(s)
      {
        SerActionsAt(buf, s, i);
        SerializeAction(s[i]);
        i := i + 1;
      }
    }

    method SerializeDelegate(d: DelegateAction)
      modifies this
      ensures buf == old(buf) + SerDelegate(d)
    {
      WriteAll(SerBytes(d.senderId));
      WriteAll(SerBytes(d.receiverId));
      WriteAll(SerU32(|d.actions|));
      SerializeActions(d.actions);
      WriteAll(SerU64(d.nonce));
      WriteAll(SerU64(d.maxBlockHeight));
      SerializeKey(d.publicKey);
      Append7(old(buf), SerBytes(d.senderId), SerBytes(d.receiverId), SerU32(|d.actions|), SerActions(d.actions),
              SerU64(d.nonce), SerU64(d.maxBlockHeight), SerKey(d.publicKey));
    }
  }

  // Elements read so far, put in front of what the rest of the input parses to.
  function Prepend<T>(front: seq<T>, p: Parsed<seq<T>>): Parsed<seq<T>> {
    match p
    case Ok(s, rest) => Ok(front + s, rest)
    case Err(e) => Err(e)
  }

  lemma PrependNone<T>(p: Parsed<seq<T>>)
    ensures Prepend([], p) == p
  {
    if p.Ok? {
      assert [] + p.value == p.value;
    }
  }

  lemma PrependStep<T>(front: seq<T>, x: T, p: Parsed<seq<T>>)
    ensures Prepend(front, Prepend([x], p)) == Prepend(front + [x], p)
  {
    if p.Ok? {
      assert front + ([x] + p.value) == front + [x] + p.value;
    }
  }

  lemma ActionsStep(host: Host, front: seq<NonDelegateAction>, count: nat, b: Bytes)
    requires count > 0
    ensures Prepend(front, ParseActions(host, count, b)) ==
            match ParseAction(host, b)
            case Ok(a, rest) => Prepend(front + [a], ParseActions(host, count - 1, rest))
            case Err(e) => Err(e)
  {
    if ParseAction(host, b).Ok? {
      PrependStep(front, ParseAction(host, b).value, ParseActions(host, count - 1, ParseAction(host, b).rest));
    }
  }

  class Reader {
    var rest: Bytes

    constructor (input: Bytes)
      ensures rest == input
    {
      rest := input;
    }

    // Fill `buf` from the front of the input, or fail when the input is too short.
    method ReadExactInto(buf: array<byte>) returns (r: Result<()>)
      modifies this, buf
      ensures match ReadExact(old(rest), buf.Length)
        case Ok(front, tail) => r == Success(()) && buf[..] == front && rest == tail
        case Err(e) => r == Failure(e)
    {
      if |rest| < buf.Length {
        return Failure(UnexpectedEof);
      }
      forall k | 0 <= k < buf.Length {
        buf[k] := rest[k];
      }
      rest := rest[buf.Length..];
      r := Success(());
    }

    method ReadU8() returns (r: Result<byte>)
      modifies this
      ensures Agrees(ParseU8(old(rest)), r, rest)
    {
      var buf := new byte[1](_ => 0);
      var _ :- ReadExactInto(buf);
      r := Success(buf[0]);
    }

    method ReadU32() returns (r: Result<u32>)
      modifies this
      ensures Agrees(ParseU32(old(rest)), r, rest)
    {
      var buf := new byte[4](_ => 0);
      var _ :- ReadExactInto(buf);
      Widths();
      r := Success(FromLe(buf[..]));
    }

    method ReadU64() returns (r: Result<u64>)
      modifies this
      ensures Agrees(ParseU64(old(rest)), r, rest)
    {
      var buf := new byte[8](_ => 0);
      var _ :- ReadExactInto(buf);
      Widths();
      r := Success(FromLe(buf[..]));
    }

    method ReadU128() returns (r: Result<u128>)
      modifies this
      ensures Agrees(ParseU128(old(rest)), r, rest)
    {
      var buf := new byte[16](_ => 0);
      var _ :- ReadExactInto(buf);
      Widths();
      r := Success(FromLe(buf[..]));
    }

    method ReadByteString() returns (r: Result<Str>)
      modifies this
      ensures Agrees(ParseBytes(old(rest)), r, rest)
    {
      var n :- ReadU32();
      var buf := new byte[n](_ => 0);
      var _ :- ReadExactInto(buf);
      r := Success(buf[..]);
    }

    method ReadString(host: Host) returns (r: Result<Str>)
      modifies this
      ensures Agrees(ParseString(host, old(rest)), r, rest)
    {
      var s :- ReadByteString();
      r := if host.validUtf8(s) then Success(s) else Failure(InvalidUtf8);
    }

    method ReadAccountId(host: Host) returns (r: Result<AccountId>)
      modifies this
      ensures Agrees(ParseAccountId(host, old(rest)), r, rest)
    {
      var s :- ReadString(host);
      r := if host.validAccountId(s) then Success(s) else Failure(InvalidAccountId);
    }

    method DeserializeKey() returns (r: Result<Key32>)
      modifies this
      ensures Agrees(ParseKey(old(rest)), r, rest)
    {
      var tag :- ReadU8();
      if tag != 0 {
        return Failure(BadKeyTag(tag));
      }
      var bytes := new byte[32](_ => 0);
      var _ :- ReadExactInto(bytes);
      r := Success(bytes[..]);
    }

    method DeserializeSignature() returns (r: Result<Sig64>)
      modifies this
      ensures Agrees(ParseSignature(old(rest)), r, rest)
    {
      var tag :- ReadU8();
      if tag != 0 {
        return Failure(BadSignatureTag(tag));
      }
      var bytes := new byte[64](_ => 0);
      var _ :- ReadExactInto(bytes);
      r := Success(bytes[..]);
    }

    method DeserializeCall(host: Host) returns (r: Result<FunctionCallAction>)
      modifies this
      ensures Agrees(ParseCall(host, old(rest)), r, rest)
    {
      var name :- ReadString(host);
      var args :- ReadByteString();
      var gas :- ReadU64();
      var deposit :- ReadU128();
      r := Success(FunctionCallAction(name, args, gas, deposit));
    }

    method DeserializeAction(host: Host) returns (r: Result<NonDelegateAction>)
      modifies this
      ensures Agrees(ParseAction(host, old(rest)), r, rest)
    {
      var tag :- ReadU8();
      if tag == ACTION_TAG_FUNCTION_CALL {
        var c :- DeserializeCall(host);
        return Success(FunctionCall(c));
      } else if tag == ACTION_TAG_DELEGATE {
        return Failure(NestedDelegate);
      }
      r := Failure(UnsupportedAction(tag));
    }

    method DeserializeActions(host: Host, count: nat) returns (r: Result<seq<NonDelegateAction>>)
      modifies this
      ensures Agrees(ParseActions(host, count, old(rest)), r, rest)
    {
      ghost var goal := ParseActions(host, count, rest);
      var actions: seq<NonDelegateAction> := [];
      var left := count;
      PrependNone(goal);
      while left > 0
        invariant goal == Prepend(actions, ParseActions(host, left, rest))
      {
        var next := DeserializeNext(host, left, actions);
        if next.Failure? {
          return Failure(next.error);
        }
        actions := next.value;
        left := left - 1;
      }
      assert actions + [] == actions;
      r := Success(actions);
    }

    // One round of the loop: read one element and push it.
    method DeserializeNext(host: Host, left: nat, actions: seq<NonDelegateAction>)
      returns (r: Result<seq<NonDelegateAction>>)
      requires left > 0
      modifies this
      ensures match r
        case Success(more) =>
          Prepend(actions, ParseActions(host, left, old(rest))) == Prepend(more, ParseActions(host, left - 1, rest))
        case Failure(e) => ParseActions(host, left, old(rest)) == Err(e)
    {
      ActionsStep(host, actions, left, rest);
      var a :- DeserializeAction(host);
      r := Success(actions + [a]);
    }

    method DeserializeDelegate(host: Host) returns (r: Result<DelegateAction>)
      modifies this
      ensures Agrees(ParseDelegate(host, old(rest)), r, rest)
    {
      var sender :- ReadAccountId(host);
      var receiver :- ReadAccountId(host);
      var count :- ReadU32();
      var actions :- DeserializeActions(host, count);
      var nonce :- ReadU64();
      var height :- ReadU64();
      var key :- DeserializeKey();
      r := Success(DelegateAction(sender, receiver, actions, nonce, height, key));
    }

    method DeserializeSigned(host: Host) returns (r: Result<SignedDelegateAction>)
      modifies this
      ensures Agrees(ParseSigned(host, old(rest)), r, rest)
    {
      var d :- DeserializeDelegate(host);
      var s :- DeserializeSignature();
      r := Success(SignedDelegateAction(d, s));
    }
  }

  method TryParse(host: Host, input: Bytes) returns (r: Result<SignedDelegateAction>)
    ensures Agrees(TryFromSlice(host, input), r, [])
  {
    var reader := new Reader(input);
    var x :- reader.DeserializeSigned(host);
    r := if |reader.rest| > 0 then Failure(NotAllBytesRead) else Success(x);
  }

  method SignedMessageHash(host: Host, d: DelegateAction) returns (hash: Bytes)
    ensures hash == host.sha256(Preimage(d))
  {
    var w := new Writer();
    w.WriteAll(SerU32(NEP_366_DELEGATE_DISCRIMINANT));
    w.SerializeDelegate(d);
    assert w.buf == Preimage(d);
    hash := host.sha256(w.buf);
  }

  method VerifySignature(host: Host, x: SignedDelegateAction) returns (ok: bool)
    ensures ok == Verify(host, x)
  {
    var hash := SignedMessageHash(host, x.delegateAction);
    ok := host.ed25519Verify(x.signature, hash, x.delegateAction.publicKey);
  }
}
