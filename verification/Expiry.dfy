/** Expiry is checked when an intent is submitted, and by nothing after that. When the approver releases intents,
    what the gate shows of the pending intents tells whether they will still be unexpired when dispatched. */
module Expiry {
  import opened Types
  import opened Nep366
  import opened GateSpec
  import opened Runtime
  import opened StepEquations
  import opened Ledger
  import opened Discipline
  import opened Chain
  import opened Completion
  import opened Timing
  import opened Integrity

  // A pending entry is the one its intent was parked with.
  lemma PendingFrom(w: World, w': World, kind: Kind, id: u64)
    requires Inv(w) && Moves(w, w', kind) && id in w'.gate.pending
    ensures (id in w.gate.pending && w'.gate.pending[id] == w.gate.pending[id]) || (kind.Parking? && id == |w.intents|)
  {
  }

  // Step `s` is the submission of the delegate that intent `id`, with its call and its expiry, stems from.
  ghost predicate StemsFrom(host: Host, w: World, s: Step, id: u64, entry: PendingIntent) {
    && Authorises(host, w, s, id, entry.call)
    && DelegateOf(host, s.event.call.signedDelegate).maxBlockHeight == entry.expiresAtBlock
  }

  lemma ParkedEntry(w: World, ctx: Ctx, m: Method, d: DelegateAction, fc: FunctionCallAction)
    requires Inv(w) && Park(w.gate, ctx, d, fc).Commit?
    ensures var g' := ApplyTx(w, ctx.block, m, Park(w.gate, ctx, d, fc)).gate;
            |w.intents| in g'.pending && g'.pending[|w.intents|].expiresAtBlock == d.maxBlockHeight
  {
  }

  lemma ParkedExpiry(host: Host, w: World, s: Step)
    requires Inv(w) && Enabled(w, s) && KindOf(host, w, s).Parking?
    ensures TryFromSlice(host, s.event.call.signedDelegate).Ok?
    ensures var g' := Next(host, w, s).gate;
            && |w.intents| in g'.pending
            && g'.pending[|w.intents|].expiresAtBlock == DelegateOf(host, s.event.call.signedDelegate).maxBlockHeight
  {
    var d, fc := Admitted(host, w.gate, CtxOf(host, w, s), s.event.call.signedDelegate);
    ParkedEntry(w, CtxOf(host, w, s), s.event.call, d, fc);
  }

  lemma ParkedStems(host: Host, w: World, s: Step)
    requires Inv(w) && Enabled(w, s) && KindOf(host, w, s).Parking? && Inv(Next(host, w, s))
    ensures var w' := Next(host, w, s);
            |w.intents| in w'.gate.pending && StemsFrom(host, w, s, |w.intents|, w'.gate.pending[|w.intents|])
  {
    AcceptedAuthorises(host, w, s);
    ParkedExpiry(host, w, s);
  }

  // What the gate shows of a pending intent is what was signed.
  lemma {:induction false} PendingShowsDelegate(host: Host, ws: seq<World>, steps: seq<Step>, k: nat, id: u64)
    returns (j: nat)
    requires GateRun(host, ws, steps) && k < |ws| && id in ws[k].gate.pending
    ensures j < k && StemsFrom(host, ws[j], steps[j], id, ws[k].gate.pending[id])
  {
    j := k - 1;
    Always(host, ws, steps, j);
    Always(host, ws, steps, k);
    var kind := KindOf(host, ws[j], steps[j]);
    PendingFrom(ws[j], ws[k], kind, id);
    if kind.Parking? && id == |ws[j].intents| {
      ParkedStems(host, ws[j], steps[j]);
    } else {
      j := PendingShowsDelegate(host, ws, steps, j, id);
    }
  }

  lemma SendRecords(w: World, w': World, id: nat)
    requires Inv(w) && SendMove(w, w', id)
    ensures |w'.trace| > 0
    ensures var sent := w'.trace[|w'.trace| - 1];
            sent.id == id && sent.call == w.intents[id].args.call && sent.block == w'.block
  {
  }

  // In any run, what the gate shows of a pending intent tells up to which block its dispatch will be unexpired.
  lemma DispatchUnexpired(host: Host, ws: seq<World>, steps: seq<Step>, m: nat, c: nat, id: nat) returns (j: nat)
    requires GateRun(host, ws, steps) && m <= c < |steps|
    requires id in ws[m].gate.pending && Kinds(host, ws, steps)[c] == Send(id)
    ensures j < m && |ws[c + 1].trace| > 0
    ensures var sent := ws[c + 1].trace[|ws[c + 1].trace| - 1];
            && sent.id == id && Authorises(host, ws[j], steps[j], id, sent.call)
            && (sent.block < DelegateOf(host, steps[j].event.call.signedDelegate).maxBlockHeight
                <==> ws[c + 1].block < ws[m].gate.pending[id].expiresAtBlock)
  {
    j := PendingShowsDelegate(host, ws, steps, m, id);
    RunIsWalk(host, ws, steps);
    WalkGrows(ws, Kinds(host, ws, steps), m, c);
    assert Inv(ws[m]) && Moves(ws[c], ws[c + 1], Kinds(host, ws, steps)[c]);
    SendRecords(ws[c], ws[c + 1], id);
  }

  // So an intent that is released alone, and whose callback runs in the next block, is dispatched unexpired if and
  // only if that block is below the expiry the gate showed.
  lemma SingleDispatchUnexpired(host: Host, ws: seq<World>, steps: seq<Step>, m: nat, c: nat, id: nat)
    returns (j: nat)
    requires GateRun(host, ws, steps) && m < c < |steps|
    requires Kinds(host, ws, steps)[m] == Single(id, true) && Kinds(host, ws, steps)[c] == Send(id)
    requires ws[c + 1].block == ws[m + 1].block + 1
    ensures id in ws[m].gate.pending && j < m && |ws[c + 1].trace| > 0
    ensures var sent := ws[c + 1].trace[|ws[c + 1].trace| - 1];
            && sent.id == id && Authorises(host, ws[j], steps[j], id, sent.call)
            && (sent.block < DelegateOf(host, steps[j].event.call.signedDelegate).maxBlockHeight
                <==> ws[m + 1].block + 1 < ws[m].gate.pending[id].expiresAtBlock)
  {
    Always(host, ws, steps, m);
    assert SingleMove(ws[m], ws[m + 1], id, true);
    j := DispatchUnexpired(host, ws, steps, m, c, id);
  }

  lemma SentCall(w: World, b: nat, q: nat)
    requires Inv(w) && ChainInv(w) && 1 <= b <= |w.batches| && q < |SentIn(w.trace, b)|
    ensures q < |OrderOf(w, b)| && SentIn(w.trace, b)[q].id == OrderOf(w, b)[q] < |w.intents|
    ensures SentIn(w.trace, b)[q].call == w.intents[OrderOf(w, b)[q]].args.call
  {
    assert BatchOk(w, b);
    SentInFromTrace(w.trace, b, q);
    var j :| 0 <= j < |w.trace| && w.trace[j] == SentIn(w.trace, b)[q];
    assert SentOk(w, w.trace[j]);
  }

  // A batch that keeps to the eager schedule dispatches its q-th intent before the height up to which its
  // delegate was signed if and only if the start of the batch, read against the pending entry, says so.
  lemma EagerDispatchUnexpired(host: Host, ws: seq<World>, steps: seq<Step>, m: nat, k: nat, ids: seq<u64>,
                               timeout: nat, q: nat) returns (j: nat)
    requires GateRun(host, ws, steps) && SafeRun(host, ws, steps)
    requires m < k < |ws| && Kinds(host, ws, steps)[m] == Start(ids) && Distinct(ids) && AllWait(ws[m], ids)
    requires InTime(ws[m], ids, ws[m + 1].block, timeout)
    requires forall j :: m < j < k ==>
               Attends(ws[j], ws[j + 1], Kinds(host, ws, steps)[j], |ws[m].batches| + 1, ids, timeout)
    requires ws[m + 1].block + 3 * |ids| <= ws[k].block && q < |ids|
    ensures ids[q] in ws[m].gate.pending && j < m
    ensures var sent := SentIn(ws[k].trace, |ws[m].batches| + 1);
            && q < |sent| && Authorises(host, ws[j], steps[j], ids[q], sent[q].call)
            && (sent[q].block < DelegateOf(host, steps[j].event.call.signedDelegate).maxBlockHeight
                <==> ws[m + 1].block + 1 + 3 * q < ws[m].gate.pending[ids[q]].expiresAtBlock)
  {
    EagerBatchOnTime(host, ws, steps, m, k, ids, timeout);
    RunIsSafeWalk(host, ws, steps);
    assert ids[q] in ids;
    j := PendingShowsDelegate(host, ws, steps, m, ids[q]);
    ChainHolds(ws, Kinds(host, ws, steps), k);
    WalkGrows(ws, Kinds(host, ws, steps), m, k);
    SentCall(ws[k], |ws[m].batches| + 1, q);
  }
}
