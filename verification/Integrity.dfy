/** What ran is what was signed: every call the gate makes comes, unaltered, from a delegate that a
    whitelisted relayer submitted, that verified under its own key and had not expired; and no
    (sender, nonce) pair is used twice. */
module Integrity {
  import opened Types
  import opened Nep366
  import opened Nonces
  import opened GateSpec
  import opened Runtime
  import opened StepEquations
  import opened Ledger
  import opened Batch
  import opened Completion

  function DelegateOf(host: Host, input: Bytes): DelegateAction
    requires TryFromSlice(host, input).Ok?
  {
    TryFromSlice(host, input).value.delegateAction
  }

  // The submitted bytes carry, after everything they sign, a signature over all of it.
  ghost predicate SignedBytes(host: Host, input: Bytes, key: Bytes) {
    && |input| >= 65
    && host.ed25519Verify(input[|input| - 64..],
                          host.sha256([0x6E, 0x01, 0x00, 0x40] + input[..|input| - 65]), key)
  }

  // Step `s`, taken in world `w`, is the submission that authorises intent `id` to make `call`.
  ghost predicate Authorises(host: Host, w: World, s: Step, id: nat, call: Call) {
    && s.event.Tx? && s.event.call.SubmitIntent?
    && id == w.gate.nextIntentId
    && s.event.caller in w.gate.relayers
    && var input := s.event.call.signedDelegate;
    && TryFromSlice(host, input).Ok?
    && var d := DelegateOf(host, input);
    && SignedBytes(host, input, d.publicKey)
    && s.block < d.maxBlockHeight
    && NonceKey(d.senderId, d.nonce) !in w.gate.usedNonces
    && |d.actions| == 1
    && var fc := d.actions[0].call;
    && call == Call(d.receiverId, fc.methodName, fc.args, fc.deposit, fc.gas)
  }

  lemma SignatureCoversInput(host: Host, input: Bytes)
    requires TryFromSlice(host, input).Ok? && Verify(host, TryFromSlice(host, input).value)
    ensures SignedBytes(host, input, DelegateOf(host, input).publicKey)
  {
    HashCoversInput(host, input);
    SignatureEnds(host, input);
  }

  lemma AcceptedAuthorises(host: Host, w: World, s: Step)
    requires Inv(w) && Enabled(w, s) && KindOf(host, w, s).Parking?
    ensures var w' := Next(host, w, s);
            && |w'.intents| == |w.intents| + 1
            && Authorises(host, w, s, |w.intents|, w'.intents[|w.intents|].args.call)
            && var d := DelegateOf(host, s.event.call.signedDelegate);
            && NonceKey(d.senderId, d.nonce) in w'.gate.usedNonces
  {
    var input := s.event.call.signedDelegate;
    var d, fc := Admitted(host, w.gate, CtxOf(host, w, s), input);
    SignatureCoversInput(host, input);
  }

  // ---- integrity ----

  lemma OnlyParkingAdds(w: World, w': World, kind: Kind)
    requires Inv(w) && Moves(w, w', kind)
    ensures kind.Parking? <==> |w'.intents| == |w.intents| + 1
    ensures !kind.Parking? ==> |w'.intents| == |w.intents| && w'.gate.usedNonces == w.gate.usedNonces
    ensures w.gate.usedNonces.Keys <= w'.gate.usedNonces.Keys
  {
  }

  lemma NewFrom(w: World, w': World, kind: Kind, i: nat)
    requires Inv(w) && Moves(w, w', kind) && |w.intents| <= i < |w'.intents|
    ensures kind.Parking? && i == |w.intents|
  {
    OnlyParkingAdds(w, w', kind);
  }

  // Each intent was added by one accepted submission, and keeps the call it was added with.
  lemma {:induction false} AddedAt(ws: seq<World>, kinds: seq<Kind>, k: nat, i: nat) returns (m: nat)
    requires IsWalk(ws, kinds) && k < |ws| && |ws[0].intents| <= i < |ws[k].intents|
    ensures m < k && kinds[m].Parking? && |ws[m].intents| == i
  {
    m := k - 1;
    if i < |ws[m].intents| {
      m := AddedAt(ws, kinds, m, i);
    } else {
      NewFrom(ws[m], ws[k], kinds[m], i);
    }
  }

  lemma ParkedByAuthority(host: Host, ws: seq<World>, steps: seq<Step>, k: nat, i: nat) returns (m: nat)
    requires GateRun(host, ws, steps) && k < |ws| && i < |ws[k].intents|
    ensures m < k && Authorises(host, ws[m], steps[m], i, ws[k].intents[i].args.call)
    ensures KindOf(host, ws[m], steps[m]).Parking?
  {
    RunIsWalk(host, ws, steps);
    m := AddedAt(ws, Kinds(host, ws, steps), k, i);
    WalkGrows(ws, Kinds(host, ws, steps), m + 1, k);
    AcceptedAuthorises(host, ws[m], steps[m]);
  }

  // Calls run by targets on the gate's behalf are calls of parked intents.
  ghost predicate RanOk(w: World) {
    forall k :: 0 <= k < |w.ran| && w.ran[k].origin.FromGate? ==>
      w.ran[k].origin.id < |w.intents| && w.ran[k].call == w.intents[w.ran[k].origin.id].args.call
  }

  lemma RanKept(w: World, w': World, kind: Kind)
    requires Inv(w) && RanOk(w) && Moves(w, w', kind)
    ensures RanOk(w')
  {
    StepGrows(w, w', kind);
  }

  lemma {:induction false} RanAlways(host: Host, ws: seq<World>, steps: seq<Step>, k: nat)
    requires GateRun(host, ws, steps) && k < |ws|
    ensures RanOk(ws[k])
  {
    if k > 0 {
      RanAlways(host, ws, steps, k - 1);
      Always(host, ws, steps, k - 1);
      RanKept(ws[k - 1], ws[k], KindOf(host, ws[k - 1], steps[k - 1]));
    }
  }

  // Every call the gate dispatches was authorised by an earlier submission, whatever happened in between.
  lemma DispatchIntegrity(host: Host, ws: seq<World>, steps: seq<Step>, k: nat, t: Sent)
    requires GateRun(host, ws, steps) && k < |ws| && t in ws[k].trace
    ensures exists m :: 0 <= m < k && Authorises(host, ws[m], steps[m], t.id, t.call)
  {
    Always(host, ws, steps, k);
    var j :| 0 <= j < |ws[k].trace| && ws[k].trace[j] == t;
    assert SentOk(ws[k], ws[k].trace[j]);
    var m := ParkedByAuthority(host, ws, steps, k, t.id);
  }

  // So was every call that a target ran on the gate's behalf.
  lemma ExecutionIntegrity(host: Host, ws: seq<World>, steps: seq<Step>, k: nat, x: Ran)
    requires GateRun(host, ws, steps) && k < |ws| && x in ws[k].ran && x.origin.FromGate?
    ensures exists m :: 0 <= m < k && Authorises(host, ws[m], steps[m], x.origin.id, x.call)
  {
    RanAlways(host, ws, steps, k);
    var m := ParkedByAuthority(host, ws, steps, k, x.origin.id);
  }

  // ---- each call is run at most once ----

  predicate HasRun(p: Phase) { p.Continuing? || p.Finished? }

  // The intents whose calls have been run on the gate's behalf are past their dispatch, each of them once.
  ghost predicate RanOnce(w: World) {
    && (forall k :: 0 <= k < |w.ran| && w.ran[k].origin.FromGate? ==>
          w.ran[k].origin.id < |w.intents| && HasRun(w.intents[w.ran[k].origin.id].phase))
    && (forall j, k :: 0 <= j < k < |w.ran| && w.ran[j].origin.FromGate? && w.ran[k].origin.FromGate? ==>
          w.ran[j].origin.id != w.ran[k].origin.id)
  }

  lemma RunStays(w: World, w': World, kind: Kind, i: nat)
    requires Inv(w) && Moves(w, w', kind) && i < |w.intents| && HasRun(w.intents[i].phase)
    ensures i < |w'.intents| && HasRun(w'.intents[i].phase)
  {
    PhasesForward(w, w', kind, i);
    if w.intents[i].phase.Continuing? {
      FlightTouched(w, w', kind, i);
    }
  }

  lemma RanOnceKept(w: World, w': World, kind: Kind)
    requires Inv(w) && RanOnce(w) && Moves(w, w', kind)
    ensures RanOnce(w')
  {
    forall k | 0 <= k < |w.ran| && w.ran[k].origin.FromGate?
      ensures w.ran[k].origin.id < |w'.intents| && HasRun(w'.intents[w.ran[k].origin.id].phase)
    {
      RunStays(w, w', kind, w.ran[k].origin.id);
    }
    if !kind.Arrive? && !kind.Pull? && !kind.Foreign? {
      assert w'.ran == w.ran;
    }
  }

  // Whatever the owner resets and however receipts interleave, no intent's call is run twice.
  lemma {:induction false} ExecutedOnce(host: Host, ws: seq<World>, steps: seq<Step>, k: nat)
    requires GateRun(host, ws, steps) && k < |ws|
    ensures RanOnce(ws[k])
  {
    if k > 0 {
      ExecutedOnce(host, ws, steps, k - 1);
      Always(host, ws, steps, k - 1);
      RanOnceKept(ws[k - 1], ws[k], KindOf(host, ws[k - 1], steps[k - 1]));
    }
  }

  // ---- replay ----

  function PairOf(host: Host, s: Step): (AccountId, u64)
    requires s.event.Tx? && s.event.call.SubmitIntent? && TryFromSlice(host, s.event.call.signedDelegate).Ok?
  {
    var d := DelegateOf(host, s.event.call.signedDelegate);
    (d.senderId, d.nonce)
  }

  // A (sender, nonce) pair is accepted at most once in a run.
  lemma PairAcceptedOnce(host: Host, ws: seq<World>, steps: seq<Step>, j: nat, k: nat)
    requires GateRun(host, ws, steps) && j < k < |steps|
    requires KindOf(host, ws[j], steps[j]).Parking? && KindOf(host, ws[k], steps[k]).Parking?
    ensures TryFromSlice(host, steps[j].event.call.signedDelegate).Ok?
    ensures TryFromSlice(host, steps[k].event.call.signedDelegate).Ok?
    ensures PairOf(host, steps[j]) != PairOf(host, steps[k])
  {
    RunIsWalk(host, ws, steps);
    WalkGrows(ws, Kinds(host, ws, steps), j + 1, k);
    AcceptedAuthorises(host, ws[j], steps[j]);
    AcceptedAuthorises(host, ws[k], steps[k]);
  }

  // A step that accepts nothing burns no nonce.
  lemma RejectedBurnsNothing(host: Host, ws: seq<World>, steps: seq<Step>, k: nat)
    requires GateRun(host, ws, steps) && k < |steps| && !KindOf(host, ws[k], steps[k]).Parking?
    ensures ws[k + 1].gate.usedNonces == ws[k].gate.usedNonces
  {
    Always(host, ws, steps, k);
    OnlyParkingAdds(ws[k], ws[k + 1], KindOf(host, ws[k], steps[k]));
  }

  // A (sender, nonce) pair is dispatched at most once: two dispatches in a run come from submissions of
  // different pairs.
  lemma PairDispatchedOnce(host: Host, ws: seq<World>, steps: seq<Step>, k: nat, p: nat, q: nat)
    requires GateRun(host, ws, steps) && k < |ws| && p < q < |ws[k].trace|
    ensures exists i, j :: 0 <= i < k && 0 <= j < k
              && Authorises(host, ws[i], steps[i], ws[k].trace[p].id, ws[k].trace[p].call)
              && Authorises(host, ws[j], steps[j], ws[k].trace[q].id, ws[k].trace[q].call)
              && PairOf(host, steps[i]) != PairOf(host, steps[j])
  {
    var t, u := ws[k].trace[p], ws[k].trace[q];
    Always(host, ws, steps, k);
    assert SentOk(ws[k], t) && SentOk(ws[k], u);
    var i := ParkedByAuthority(host, ws, steps, k, t.id);
    var j := ParkedByAuthority(host, ws, steps, k, u.id);
    if i < j {
      PairAcceptedOnce(host, ws, steps, i, j);
    } else {
      PairAcceptedOnce(host, ws, steps, j, i);
    }
  }
}
