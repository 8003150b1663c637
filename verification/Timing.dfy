/** Block spacing of a chained batch: at least three blocks between dispatches, exactly three when every
    receipt runs as soon as it may, and a deadline under which no intent of the batch times out. */
module Timing {
  import opened Types
  import opened Runtime
  import opened StepEquations
  import opened Ledger
  import opened Discipline
  import opened Chain
  import opened Batch
  import opened Completion

  // A receipt runs at least one block after the one that created it.
  ghost predicate Spaced(w: World, w': World, kind: Kind) {
    && (kind.Refuse? || kind.Abort? || kind.Send? || kind.Arrive? || kind.Pull? || kind.Link? || kind.Break?)
    && kind.id < |w.intents| ==>
      w.intents[kind.id].since < w'.block
  }

  ghost predicate ThreeApart(sent: seq<Sent>) {
    forall q :: 0 < q < |sent| ==> sent[q - 1].block + 3 <= sent[q].block
  }

  // Blocks between the last dispatch of the batch and the creation of the receipt now due.
  function Age(p: Phase): nat {
    if p.Continuing? then 1 else if p.Resumed? then 2 else 0
  }

  ghost predicate AfterLast(sent: seq<Sent>, it: Intent) {
    |sent| > 0 ==> sent[|sent| - 1].block + Age(it.phase) <= it.since
  }

  // Successive dispatches of the batch are three blocks apart, and so is the receipt in flight from the last.
  ghost predicate SpacedBatch(w: World, b: nat) {
    && ThreeApart(SentIn(w.trace, b))
    && (forall i :: 0 <= i < |w.intents| && Flight(w.intents[i].phase, b) ==>
          AfterLast(SentIn(w.trace, b), w.intents[i]))
  }

  lemma ThreeApartAppend(sent: seq<Sent>, x: Sent)
    requires ThreeApart(sent) && (|sent| > 0 ==> sent[|sent| - 1].block + 3 <= x.block)
    ensures ThreeApart(sent + [x])
  {
  }

  // Whoever sends is the only one of its batch in flight, before and after.
  lemma SenderAlone(w: World, w': World, id: nat, b: nat)
    requires Inv(w) && ChainInv(w) && SendMove(w, w', id) && 1 <= b == w.intents[id].phase.batch <= |w.batches|
    ensures forall i :: 0 <= i < |w'.intents| && Flight(w'.intents[i].phase, b) ==> i == id
  {
    forall i | 0 <= i < |w'.intents| && Flight(w'.intents[i].phase, b) ensures i == id {
      OneFlight(w, b, i, id);
    }
  }

  lemma SpacedOwnSend(w: World, w': World, id: nat, b: nat)
    requires Inv(w) && ChainInv(w) && SendMove(w, w', id) && 1 <= b == w.intents[id].phase.batch <= |w.batches|
    requires SpacedBatch(w, b) && w.intents[id].since < w'.block
    ensures SpacedBatch(w', b)
  {
    SendBatch(w, w', id, b);
    SenderAlone(w, w', id, b);
    assert AfterLast(SentIn(w.trace, b), w.intents[id]);
    ThreeApartAppend(SentIn(w.trace, b), w'.trace[|w.trace|]);
  }

  lemma SpacedSend(w: World, w': World, id: nat, b: nat)
    requires Inv(w) && ChainInv(w) && SendMove(w, w', id) && 1 <= b <= |w.batches|
    requires SpacedBatch(w, b) && w.intents[id].since < w'.block
    ensures SpacedBatch(w', b)
  {
    if b == w.intents[id].phase.batch {
      SpacedOwnSend(w, w', id, b);
    } else {
      SendBatch(w, w', id, b);
    }
  }

  lemma SpacedLink(w: World, w': World, id: nat, b: nat)
    requires Inv(w) && ChainInv(w) && LinkMove(w, w', id) && 1 <= b <= |w.batches|
    requires SpacedBatch(w, b) && w.intents[id].since < w'.block
    ensures SpacedBatch(w', b)
  {
    assert Flight(w.intents[id].phase, w.intents[id].phase.batch);
  }

  lemma FlightFrom(w: World, w': World, kind: Kind, b: nat, i: nat)
    requires Inv(w) && Orderly(w, w', kind) && 1 <= b <= |w.batches| && !kind.Send? && !kind.Link?
    requires i < |w'.intents| && Flight(w'.intents[i].phase, b)
    ensures i < |w.intents| && Flight(w.intents[i].phase, b)
    ensures w'.intents[i] == w.intents[i] ||
              (&& kind == Arrive(i) && w.intents[i].phase.Calling?
               && w'.intents[i].phase.Continuing? && w'.intents[i].since == w'.block)
  {
    if kind.Parking? {
      assert w'.intents == w.intents + [w'.intents[|w.intents|]];
    }
  }

  lemma SpacedRest(w: World, w': World, kind: Kind, b: nat)
    requires Inv(w) && ChainInv(w) && Orderly(w, w', kind) && 1 <= b <= |w.batches|
    requires SpacedBatch(w, b) && Spaced(w, w', kind) && !kind.Send? && !kind.Link?
    ensures SpacedBatch(w', b)
  {
    assert w'.trace == w.trace;
    forall i | 0 <= i < |w'.intents| && Flight(w'.intents[i].phase, b)
      ensures AfterLast(SentIn(w.trace, b), w'.intents[i])
    {
      FlightFrom(w, w', kind, b, i);
      assert AfterLast(SentIn(w.trace, b), w.intents[i]);
    }
  }

  lemma SpacedKept(w: World, w': World, kind: Kind, b: nat)
    requires Inv(w) && ChainInv(w) && Orderly(w, w', kind) && Spaced(w, w', kind) && 1 <= b <= |w'.batches|
    requires b <= |w.batches| ==> SpacedBatch(w, b)
    ensures SpacedBatch(w', b)
  {
    if b > |w.batches| {
      assert forall k :: 0 <= k < |w.trace| ==> SentOk(w, w.trace[k]);
      SentNone(w.trace, b);
    } else if kind.Send? {
      SpacedSend(w, w', kind.id, b);
    } else if kind.Link? {
      SpacedLink(w, w', kind.id, b);
    } else {
      SpacedRest(w, w', kind, b);
    }
  }

  lemma {:induction false} SpacedAlong(ws: seq<World>, kinds: seq<Kind>, k: nat, b: nat)
    requires IsWalk(ws, kinds) && FromGenesis(ws[0]) && SafeSteps(ws, kinds) && k < |ws|
    requires forall m :: 0 <= m < |kinds| ==> Spaced(ws[m], ws[m + 1], kinds[m])
    ensures 1 <= b <= |ws[k].batches| ==> SpacedBatch(ws[k], b)
  {
    if k > 0 {
      SpacedAlong(ws, kinds, k - 1, b);
      ChainHolds(ws, kinds, k - 1);
      if 1 <= b <= |ws[k].batches| {
        SpacedKept(ws[k - 1], ws[k], kinds[k - 1], b);
      }
    }
  }

  lemma {:induction false} Apart(sent: seq<Sent>, i: nat, j: nat)
    requires i <= j < |sent| && ThreeApart(sent)
    ensures sent[i].block + 3 * (j - i) <= sent[j].block
  {
    if i < j {
      Apart(sent, i, j - 1);
    }
  }

  // Any two dispatches of a batch are at least three blocks apart for every step of the chain between them.
  lemma BlockSpacing(host: Host, ws: seq<World>, steps: seq<Step>, k: nat, b: nat, i: nat, j: nat)
    requires GateRun(host, ws, steps) && SafeRun(host, ws, steps) && k < |ws| && 1 <= b <= |ws[k].batches|
    requires forall m :: 0 <= m < |steps| ==> Spaced(ws[m], ws[m + 1], Kinds(host, ws, steps)[m])
    requires i <= j < |SentIn(ws[k].trace, b)|
    ensures SentIn(ws[k].trace, b)[i].block + 3 * (j - i) <= SentIn(ws[k].trace, b)[j].block
  {
    RunIsSafeWalk(host, ws, steps);
    SpacedAlong(ws, Kinds(host, ws, steps), k, b);
    Apart(SentIn(ws[k].trace, b), i, j);
  }

  // ---- the eager scheduler ----

  // No time passes a receipt of batch `b` by: it runs one block after it was created, before anything later.
  ghost predicate Prompt(w: World, w': World, b: nat) {
    forall i :: 0 <= i < |w.intents| && Flight(w.intents[i].phase, b) ==> w'.block <= w.intents[i].since + 1
  }

  // The block at which the receipt of phase `p` was created, `n` intents having been dispatched.
  function DueSince(start: nat, n: nat, p: Phase): int {
    start + 3 * n - (if p.Calling? then 2 else if p.Continuing? then 1 else 0)
  }

  ghost predicate OnTime(sent: seq<Sent>, start: nat) {
    forall q :: 0 <= q < |sent| ==> sent[q].block == start + 1 + 3 * q
  }

  ghost predicate OnSchedule(w: World, b: nat, start: nat) {
    && OnTime(SentIn(w.trace, b), start)
    && (forall i :: 0 <= i < |w.intents| && Flight(w.intents[i].phase, b) ==>
          && w.intents[i].since == DueSince(start, |SentIn(w.trace, b)|, w.intents[i].phase)
          && w.block <= w.intents[i].since + 1)
  }

  lemma OnTimeAppend(sent: seq<Sent>, x: Sent, start: nat)
    requires OnTime(sent, start) && x.block == start + 1 + 3 * |sent|
    ensures OnTime(sent + [x], start)
  {
  }

  lemma ScheduleOwnSend(w: World, w': World, id: nat, b: nat, start: nat)
    requires Inv(w) && ChainInv(w) && SendMove(w, w', id) && 1 <= b == w.intents[id].phase.batch <= |w.batches|
    requires OnSchedule(w, b, start) && w.intents[id].since < w'.block && Prompt(w, w', b)
    ensures OnSchedule(w', b, start)
  {
    SendBatch(w, w', id, b);
    SenderAlone(w, w', id, b);
    assert Flight(w.intents[id].phase, b);
    OnTimeAppend(SentIn(w.trace, b), w'.trace[|w.trace|], start);
  }

  lemma ScheduleOtherSend(w: World, w': World, id: nat, b: nat, start: nat)
    requires Inv(w) && ChainInv(w) && SendMove(w, w', id) && 1 <= b <= |w.batches| && b != w.intents[id].phase.batch
    requires OnSchedule(w, b, start) && Prompt(w, w', b)
    ensures OnSchedule(w', b, start)
  {
    SendBatch(w, w', id, b);
  }

  lemma ScheduleSend(w: World, w': World, id: nat, b: nat, start: nat)
    requires Inv(w) && ChainInv(w) && SendMove(w, w', id) && 1 <= b <= |w.batches|
    requires OnSchedule(w, b, start) && w.intents[id].since < w'.block && Prompt(w, w', b)
    ensures OnSchedule(w', b, start)
  {
    if b == w.intents[id].phase.batch {
      ScheduleOwnSend(w, w', id, b, start);
    } else {
      ScheduleOtherSend(w, w', id, b, start);
    }
  }

  lemma ScheduleLink(w: World, w': World, id: nat, b: nat, start: nat)
    requires Inv(w) && ChainInv(w) && LinkMove(w, w', id) && 1 <= b <= |w.batches|
    requires OnSchedule(w, b, start) && w.intents[id].since < w'.block && Prompt(w, w', b)
    ensures OnSchedule(w', b, start)
  {
    assert Flight(w.intents[id].phase, w.intents[id].phase.batch);
  }

  lemma ScheduleRest(w: World, w': World, kind: Kind, b: nat, start: nat)
    requires Inv(w) && ChainInv(w) && Orderly(w, w', kind) && 1 <= b <= |w.batches|
    requires OnSchedule(w, b, start) && Spaced(w, w', kind) && Prompt(w, w', b) && !kind.Send? && !kind.Link?
    ensures OnSchedule(w', b, start)
  {
    assert w'.trace == w.trace;
    forall i | 0 <= i < |w'.intents| && Flight(w'.intents[i].phase, b)
      ensures w'.intents[i].since == DueSince(start, |SentIn(w.trace, b)|, w'.intents[i].phase)
      ensures w'.block <= w'.intents[i].since + 1
    {
      FlightFrom(w, w', kind, b, i);
    }
  }

  lemma ScheduleKept(w: World, w': World, kind: Kind, b: nat, start: nat)
    requires Inv(w) && ChainInv(w) && Orderly(w, w', kind) && Spaced(w, w', kind) && 1 <= b <= |w.batches|
    requires OnSchedule(w, b, start) && Prompt(w, w', b)
    ensures OnSchedule(w', b, start)
  {
    if kind.Send? {
      ScheduleSend(w, w', kind.id, b, start);
    } else if kind.Link? {
      ScheduleLink(w, w', kind.id, b, start);
    } else {
      ScheduleRest(w, w', kind, b, start);
    }
  }

  lemma ScheduleFromStart(w: World, w': World, ids: seq<u64>)
    requires Inv(w) && ChainInv(w) && StartMove(w, w', ids)
    ensures OnSchedule(w', |w'.batches|, w'.block)
  {
    assert forall k :: 0 <= k < |w.trace| ==> SentOk(w, w.trace[k]);
    SentNone(w.trace, |w'.batches|);
    assert w'.trace == w.trace;
  }

  // ---- deadlines ----

  // Each intent of the batch that still waits will be reached before it can time out, `timeout` blocks after
  // it was submitted.
  ghost predicate InTime(w: World, ids: seq<u64>, start: nat, timeout: nat) {
    forall q :: 0 <= q < |ids| && ids[q] < |w.intents| && w.intents[ids[q]].phase == Waiting ==>
      start + 3 * q < w.intents[ids[q]].since + timeout
  }

  // The runtime times a yield out no earlier than `timeout` blocks after it was created.
  ghost predicate TimeoutRule(w: World, w': World, kind: Kind, timeout: nat) {
    kind.Expire? && kind.id < |w.intents| ==> w.intents[kind.id].since + timeout <= w'.block
  }

  lemma StillInTail(ids: seq<u64>, released: nat, q: nat)
    requires Distinct(ids) && released <= |ids| && q < |ids| && ids[q] in ids[released..]
    ensures released <= q
  {
    var x :| 0 <= x < |ids[released..]| && ids[released..][x] == ids[q];
    assert ids[released + x] == ids[q];
  }

  // How many intents of the batch its receipt in flight shows to be released, and when that receipt is due.
  lemma Released(w: World, b: nat, i: nat) returns (released: nat)
    requires Inv(w) && ChainInv(w) && 1 <= b <= |w.batches| && i < |w.intents| && Flight(w.intents[i].phase, b)
    ensures released <= |OrderOf(w, b)| && TailFrom(w, b, released)
    ensures forall start: nat :: DueSince(start, |SentIn(w.trace, b)|, w.intents[i].phase) + 1 <= start + 3 * released
    ensures forall start: nat ::
              DueSince(start, |SentIn(w.trace, b)|, w.intents[i].phase) + 1 < start + 3 * |OrderOf(w, b)|
  {
    var n := |SentIn(w.trace, b)|;
    assert BatchOk(w, b) && FlightOk(w, i, b, n, |RanIn(w.ran, b)|);
    released := if w.intents[i].phase.Resumed? then n + 1 else n;
  }

  // While an intent of the batch waits for its turn, time has not come to its turn yet.
  lemma TurnNotPassed(w: World, block: nat, b: nat, ids: seq<u64>, start: nat, q: nat)
    requires Good(w) && Held(w, b, ids) && Distinct(ids) && OnSchedule(w, b, start)
    requires q < |ids| && ids[q] < |w.intents| && w.intents[ids[q]].phase == Waiting
    requires forall i :: 0 <= i < |w.intents| && Flight(w.intents[i].phase, b) ==> block <= w.intents[i].since + 1
    ensures block <= start + 3 * q
  {
    WaitingMeansInFlight(w, b, ids, q);
    assert HeldOne(w, b, ids[q]);
    var i :| 0 <= i < |w.intents| && Flight(w.intents[i].phase, b);
    var released := Released(w, b, i);
    StillInTail(ids, released, q);
  }

  lemma NothingExpires(w: World, w': World, kind: Kind, b: nat, ids: seq<u64>, start: nat, timeout: nat)
    requires Good(w) && Held(w, b, ids) && Distinct(ids) && OnSchedule(w, b, start) && InTime(w, ids, start, timeout)
    requires Orderly(w, w', kind) && Prompt(w, w', b) && TimeoutRule(w, w', kind, timeout)
    ensures !(kind.Expire? && kind.id in ids)
  {
    if kind.Expire? && kind.id in ids {
      var q :| 0 <= q < |ids| && ids[q] == kind.id;
      TurnNotPassed(w, w'.block, b, ids, start, q);
    }
  }

  lemma StillWaiting(w: World, w': World, kind: Kind, i: nat)
    requires Inv(w) && Orderly(w, w', kind) && i < |w.intents| && i < |w'.intents| && w'.intents[i].phase == Waiting
    ensures w'.intents[i] == w.intents[i]
  {
    if kind.Parking? {
      assert w'.intents[..|w.intents|][i] == w.intents[i];
    }
  }

  lemma InTimeKept(w: World, w': World, kind: Kind, ids: seq<u64>, start: nat, timeout: nat)
    requires Inv(w) && Orderly(w, w', kind) && InTime(w, ids, start, timeout)
    requires forall q :: 0 <= q < |ids| ==> ids[q] < |w.intents|
    ensures InTime(w', ids, start, timeout)
  {
    forall q | 0 <= q < |ids| && ids[q] < |w'.intents| && w'.intents[ids[q]].phase == Waiting
      ensures start + 3 * q < w'.intents[ids[q]].since + timeout
    {
      StillWaiting(w, w', kind, ids[q]);
    }
  }

  ghost predicate OnCourse(w: World, b: nat, ids: seq<u64>, start: nat, timeout: nat) {
    Held(w, b, ids) && OnSchedule(w, b, start) && InTime(w, ids, start, timeout)
  }

  // What the scheduler and the approver owe an eager batch.
  ghost predicate Attends(w: World, w': World, kind: Kind, b: nat, ids: seq<u64>, timeout: nat) {
    && Spaced(w, w', kind) && Prompt(w, w', b) && TimeoutRule(w, w', kind, timeout)
    && !((kind.Single? || kind.Abort?) && kind.id in ids)
  }

  lemma OnCourseKept(w: World, w': World, kind: Kind, b: nat, ids: seq<u64>, start: nat, timeout: nat)
    requires Good(w) && OnCourse(w, b, ids, start, timeout) && Distinct(ids)
    requires Orderly(w, w', kind) && SafeStep(w, kind) && Attends(w, w', kind, b, ids, timeout)
    ensures OnCourse(w', b, ids, start, timeout)
  {
    NothingExpires(w, w', kind, b, ids, start, timeout);
    HeldKept(w, w', kind, b, ids);
    ScheduleKept(w, w', kind, b, start);
    forall q | 0 <= q < |ids| ensures ids[q] < |w.intents| {
      assert HeldOne(w, b, ids[q]);
    }
    InTimeKept(w, w', kind, ids, start, timeout);
  }

  ghost predicate Attended(w: World, w': World, kind: Kind, b: nat, ids: seq<u64>, timeout: nat) {
    Good(w) && Orderly(w, w', kind) && SafeStep(w, kind) && Attends(w, w', kind, b, ids, timeout)
  }

  lemma OnCourseStep(w: World, w': World, kind: Kind, b: nat, ids: seq<u64>, start: nat, timeout: nat)
    requires Attended(w, w', kind, b, ids, timeout) && OnCourse(w, b, ids, start, timeout) && Distinct(ids)
    ensures OnCourse(w', b, ids, start, timeout)
  {
    OnCourseKept(w, w', kind, b, ids, start, timeout);
  }

  lemma {:induction false} OnCourseAlong(ws: seq<World>, kinds: seq<Kind>, j: nat, k: nat,
                                         b: nat, ids: seq<u64>, start: nat, timeout: nat)
    requires |ws| == |kinds| + 1 && j <= k < |ws| && OnCourse(ws[j], b, ids, start, timeout) && Distinct(ids)
    requires forall m :: j <= m < k ==> Attended(ws[m], ws[m + 1], kinds[m], b, ids, timeout)
    ensures OnCourse(ws[k], b, ids, start, timeout)
  {
    if j < k {
      OnCourseAlong(ws, kinds, j, k - 1, b, ids, start, timeout);
      OnCourseStep(ws[k - 1], ws[k], kinds[k - 1], b, ids, start, timeout);
    }
  }

  lemma OnCourseFromStart(w: World, w': World, ids: seq<u64>, timeout: nat)
    requires Good(w) && StartMove(w, w', ids)
    requires AllWait(w, ids)
    requires InTime(w, ids, w'.block, timeout)
    ensures OnCourse(w', |w'.batches|, ids, w'.block, timeout)
  {
    HeldFromStart(w, w', ids);
    ScheduleFromStart(w, w', ids);
    forall q | 0 <= q < |ids| && ids[q] < |w'.intents| && w'.intents[ids[q]].phase == Waiting
      ensures w'.block + 3 * q < w'.intents[ids[q]].since + timeout
    {
      assert w'.intents[ids[q]] == w.intents[ids[q]];
    }
  }

  // Three blocks per intent after the start, nothing of an on-course batch is left to run.
  lemma DoneInTime(w: World, b: nat, ids: seq<u64>, start: nat, timeout: nat)
    requires Good(w) && OnCourse(w, b, ids, start, timeout) && Distinct(ids) && start + 3 * |ids| <= w.block
    ensures |SentIn(w.trace, b)| == |RanIn(w.ran, b)| == |ids| && OnTime(SentIn(w.trace, b), start)
  {
    assert BatchOk(w, b);
    if InFlight(w, b) {
      var i :| 0 <= i < |w.intents| && Flight(w.intents[i].phase, b);
      var released := Released(w, b, i);
    }
    HeldIsLeft(w, b, ids);
    CompletesExactlyWhen(w, b);
  }

  lemma OnCourseOnWalk(ws: seq<World>, kinds: seq<Kind>, m: nat, k: nat, ids: seq<u64>, timeout: nat)
    requires IsWalk(ws, kinds) && FromGenesis(ws[0]) && SafeSteps(ws, kinds) && m < k < |ws|
    requires kinds[m] == Start(ids) && Distinct(ids)
    requires AllWait(ws[m], ids)
    requires InTime(ws[m], ids, ws[m + 1].block, timeout)
    requires forall j :: m < j < k ==> Attends(ws[j], ws[j + 1], kinds[j], |ws[m].batches| + 1, ids, timeout)
    ensures OnCourse(ws[k], |ws[m].batches| + 1, ids, ws[m + 1].block, timeout)
  {
    SettledHolds(ws, kinds, m);
    forall j | m < j < k ensures Attended(ws[j], ws[j + 1], kinds[j], |ws[m].batches| + 1, ids, timeout) {
      SettledHolds(ws, kinds, j);
    }
    assert Orderly(ws[m], ws[m + 1], kinds[m]);
    OnCourseFromStart(ws[m], ws[m + 1], ids, timeout);
    OnCourseAlong(ws, kinds, m + 1, k, |ws[m].batches| + 1, ids, ws[m + 1].block, timeout);
  }

  // A batch of distinct waiting intents started at block B under an eager scheduler: if B + 3q is before the
  // timeout of the q-th for every q, no callback fails and the approver and owner leave it alone, then by
  // block B + 3n every intent has been dispatched and run, the q-th dispatch at exactly block B + 1 + 3q.
  lemma EagerBatchOnTime(host: Host, ws: seq<World>, steps: seq<Step>, m: nat, k: nat, ids: seq<u64>, timeout: nat)
    requires GateRun(host, ws, steps) && SafeRun(host, ws, steps)
    requires m < k < |ws| && Kinds(host, ws, steps)[m] == Start(ids) && Distinct(ids)
    requires AllWait(ws[m], ids)
    requires InTime(ws[m], ids, ws[m + 1].block, timeout)
    requires forall j :: m < j < k ==>
               Attends(ws[j], ws[j + 1], Kinds(host, ws, steps)[j], |ws[m].batches| + 1, ids, timeout)
    requires ws[m + 1].block + 3 * |ids| <= ws[k].block
    ensures var b := |ws[m].batches| + 1;
            && b <= |ws[k].batches| && OrderOf(ws[k], b) == ids
            && |SentIn(ws[k].trace, b)| == |RanIn(ws[k].ran, b)| == |ids|
            && forall q :: 0 <= q < |ids| ==> SentIn(ws[k].trace, b)[q].block == ws[m + 1].block + 1 + 3 * q
  {
    RunIsSafeWalk(host, ws, steps);
    OnCourseOnWalk(ws, Kinds(host, ws, steps), m, k, ids, timeout);
    SettledHolds(ws, Kinds(host, ws, steps), k);
    DoneInTime(ws[k], |ws[m].batches| + 1, ids, ws[m + 1].block, timeout);
  }
}
