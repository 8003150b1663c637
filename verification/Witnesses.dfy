/** Concrete runs. Three show where the ordering guarantee ends: the owner clears the tail while a chain receipt
    is live; the approver releases a call addressed to the gate; or a batch is started while the last callback
    of the one before it is still due. One repeats an id and stalls, one dispatches an expired intent, and one
    meets every hypothesis of the ordering and timing theorems. */
module Witnesses {
  import opened Types
  import opened GateSpec
  import opened Runtime
  import opened Ledger
  import opened Discipline
  import opened Chain
  import opened Batch
  import opened Completion
  import opened Timing
  import opened Integrity
  import opened Expiry
  import opened Scenes

  // ---- playing a script ----

  ghost predicate IsScene(w: World, c: Scene) {
    Fits(c) && w == WorldOf(c)
  }

  // After the opening of `n` submissions, the first `k` steps of the script lead through the scenes.
  ghost predicate Plays(ws: seq<World>, steps: seq<Step>, n: nat, scene: nat -> Scene, script: seq<Step>, k: nat) {
    && GateRun(HOST, ws, steps) && k <= |script| && |steps| == n + 1 + k
    && (forall j :: 0 <= j <= n ==> Opens(steps[j]))
    && (forall j :: n + 1 <= j <= n + 1 + k ==> IsScene(ws[j], scene(j - n - 1)))
    && (forall j :: n + 1 <= j < n + 1 + k ==> steps[j] == script[j - n - 1])
  }

  ghost predicate Scripted(scene: nat -> Scene, script: seq<Step>) {
    forall j :: 0 <= j < |script| ==> Leads(scene(j), script[j], scene(j + 1))
  }

  lemma PlayOne(ws: seq<World>, steps: seq<Step>, n: nat, scene: nat -> Scene, script: seq<Step>, k: nat)
    returns (ws': seq<World>, steps': seq<Step>)
    requires Plays(ws, steps, n, scene, script, k) && k < |script| && Leads(scene(k), script[k], scene(k + 1))
    ensures Plays(ws', steps', n, scene, script, k + 1)
  {
    assert IsScene(ws[n + 1 + k], scene(k));
    ws', steps' := Extend(ws, steps, scene(k), script[k], scene(k + 1));
    forall j | n + 1 <= j <= n + 2 + k ensures IsScene(ws'[j], scene(j - n - 1)) {
      assert j < n + 2 + k ==> ws'[j] == ws[j] && IsScene(ws[j], scene(j - n - 1));
    }
    forall j | n + 1 <= j < n + 2 + k ensures steps'[j] == script[j - n - 1] {
      assert j < n + 1 + k ==> steps'[j] == steps[j];
    }
  }

  lemma {:induction false} Played(selfish: bool, n: nat, scene: nat -> Scene, script: seq<Step>, k: nat)
    returns (ws: seq<World>, steps: seq<Step>)
    requires n <= 4 && Scripted(scene, script) && k <= |script| && scene(0) == Queue(selfish, n)
    ensures Plays(ws, steps, n, scene, script, k)
  {
    if k == 0 {
      ws, steps := Opened(selfish, n);
    } else {
      ws, steps := Played(selfish, n, scene, script, k - 1);
      ws, steps := PlayOne(ws, steps, n, scene, script, k - 1);
    }
  }

  lemma NotAReset(w: World, s: Step)
    requires Enabled(w, s) && !IsReset(s)
    ensures !KindOf(HOST, w, s).Reset?
  {
  }

  lemma AllVetted(ws: seq<World>, steps: seq<Step>, n: nat, scene: nat -> Scene, script: seq<Step>)
    requires Plays(ws, steps, n, scene, script, |script|)
    requires forall j :: 0 <= j <= |script| ==> !scene(j).selfish
    ensures forall k :: 0 <= k < |steps| ==> Vets(HOST, ws[k], steps[k])
  {
    forall k | 0 <= k < |steps| ensures Vets(HOST, ws[k], steps[k]) {
      if k > n {
        assert IsScene(ws[k], scene(k - n - 1));
        PlainVets(scene(k - n - 1), steps[k]);
      }
    }
  }

  // Without a reset, and without an intent addressed to the gate, a run is disciplined.
  lemma PlainRun(ws: seq<World>, steps: seq<Step>, n: nat, scene: nat -> Scene, script: seq<Step>)
    requires Plays(ws, steps, n, scene, script, |script|)
    requires forall j :: 0 <= j <= |script| ==> !scene(j).selfish
    requires forall j :: 0 <= j < |script| ==> !IsReset(script[j])
    ensures Disciplined(HOST, ws, steps)
  {
    AllVetted(ws, steps, n, scene, script);
    forall k | 0 <= k < |steps| ensures !KindOf(HOST, ws[k], steps[k]).Reset? {
      assert k > n ==> steps[k] == script[k - n - 1];
      NotAReset(ws[k], steps[k]);
    }
  }

  // ---- the slots of block 0 ----

  function Freed(seqNo: u32, next: Option<u64>, batch: nat): Slot {
    Slot(Resumed(ResumeSignal(true, Some(seqNo), next), batch), 0)
  }

  function Called(next: Option<Then>, batch: nat): Slot { Slot(Calling(CALL, next, batch), 0) }

  function Chained(next: Then, batch: nat): Slot { Slot(Continuing(next, batch), 0) }

  function Over(batch: nat): Slot { Slot(Finished(batch), 0) }

  function Now(slots: seq<Slot>, tail: seq<u64>, collected: u128, batches: seq<seq<u64>>, trace: seq<Sent>,
               ran: seq<Ran>): Scene {
    Scene(false, 0, slots, tail, collected, batches, trace, ran)
  }

  function Go(e: Event): Step { Step(0, e) }

  function SentAs(id: nat, batch: nat, seqNo: u32): Sent { Sent(id, CALL, batch, Some(seqNo), 0) }

  function RanAs(id: nat, batch: nat): Ran { Ran(CALL, FromGate(id, batch)) }

  // ---- what short histories hold of a batch ----

  function SentOwn(x: Sent, b: nat): seq<Sent> {
    if x.batch == b then [x] else []
  }

  lemma SentOfThree(x: Sent, y: Sent, z: Sent, b: nat)
    ensures SentIn([x, y, z], b) == SentOwn(x, b) + SentOwn(y, b) + SentOwn(z, b)
  {
    assert [x, y] == [x] + [y] && [x, y, z] == [x, y] + [z];
    SentAppend([x], y, b);
    SentAppend([x, y], z, b);
  }

  lemma SentOfFour(x: Sent, y: Sent, z: Sent, u: Sent, b: nat)
    ensures SentIn([x, y, z, u], b) == SentOwn(x, b) + SentOwn(y, b) + SentOwn(z, b) + SentOwn(u, b)
  {
    SentOfThree(x, y, z, b);
    assert [x, y, z, u] == [x, y, z] + [u];
    SentAppend([x, y, z], u, b);
  }

  function RanOwn(x: Ran, b: nat): seq<Ran> {
    if x.origin.FromGate? && x.origin.batch == b then [x] else []
  }

  lemma RanOfThree(x: Ran, y: Ran, z: Ran, b: nat)
    ensures RanIn([x, y, z], b) == RanOwn(x, b) + RanOwn(y, b) + RanOwn(z, b)
  {
    assert [x, y] == [x] + [y] && [x, y, z] == [x, y] + [z];
    RanAppend([x], y, b);
    RanAppend([x, y], z, b);
  }

  // ---- a reset under a live chain ----

  // Batch [0, 1] is started and its first call dispatched; the owner clears the tail and batch [2, 1, 3] is
  // started; the receipts of the first batch go on, and its stale continue_chain finds its own next intent at
  // the head of the second batch's tail. Both chains then dispatch; the second one's continue_chain finds its
  // next intent gone from the head and panics; the first one's goes on to release and dispatch intent 3.
  function ResetEarly(k: nat): Scene {
    if k == 0 then
      Now([WAITS, WAITS, WAITS, WAITS], [], 0, [], [], [])
    else if k == 1 then
      Now([Freed(0, Some(1), 1), WAITS, WAITS, WAITS], [1], FEE, [[0, 1]], [], [])
    else if k == 2 then
      Now([Called(Some(Then(1, 1)), 1), WAITS, WAITS, WAITS], [1], FEE, [[0, 1]], [SentAs(0, 1, 0)], [])
    else if k == 3 then
      Now([Called(Some(Then(1, 1)), 1), WAITS, WAITS, WAITS], [], FEE, [[0, 1]], [SentAs(0, 1, 0)], [])
    else if k == 4 then
      Now([Called(Some(Then(1, 1)), 1), WAITS, Freed(0, Some(1), 2), WAITS], [1, 3], FEE + FEE, [[0, 1], [2, 1, 3]],
          [SentAs(0, 1, 0)], [])
    else if k == 5 then
      Now([Chained(Then(1, 1), 1), WAITS, Freed(0, Some(1), 2), WAITS], [1, 3], FEE + FEE, [[0, 1], [2, 1, 3]],
          [SentAs(0, 1, 0)], [RanAs(0, 1)])
    else
      Now([Over(1), Freed(1, Some(3), 1), Freed(0, Some(1), 2), WAITS], [3], FEE + FEE, [[0, 1], [2, 1, 3]],
          [SentAs(0, 1, 0)], [RanAs(0, 1)])
  }

  function ResetLate(k: nat): Scene {
    if k == 7 then
      Now([Over(1), Called(Some(Then(3, 2)), 1), Freed(0, Some(1), 2), WAITS], [3], FEE + FEE, [[0, 1], [2, 1, 3]],
          [SentAs(0, 1, 0), SentAs(1, 1, 1)], [RanAs(0, 1)])
    else if k == 8 then
      Now([Over(1), Called(Some(Then(3, 2)), 1), Called(Some(Then(1, 1)), 2), WAITS], [3], FEE + FEE,
          [[0, 1], [2, 1, 3]], [SentAs(0, 1, 0), SentAs(1, 1, 1), SentAs(2, 2, 0)], [RanAs(0, 1)])
    else if k == 9 then
      Now([Over(1), Called(Some(Then(3, 2)), 1), Chained(Then(1, 1), 2), WAITS], [3], FEE + FEE, [[0, 1], [2, 1, 3]],
          [SentAs(0, 1, 0), SentAs(1, 1, 1), SentAs(2, 2, 0)], [RanAs(0, 1), RanAs(2, 2)])
    else if k == 10 then
      Now([Over(1), Called(Some(Then(3, 2)), 1), Over(2), WAITS], [3], FEE + FEE, [[0, 1], [2, 1, 3]],
          [SentAs(0, 1, 0), SentAs(1, 1, 1), SentAs(2, 2, 0)], [RanAs(0, 1), RanAs(2, 2)])
    else if k == 11 then
      Now([Over(1), Chained(Then(3, 2), 1), Over(2), WAITS], [3], FEE + FEE, [[0, 1], [2, 1, 3]],
          [SentAs(0, 1, 0), SentAs(1, 1, 1), SentAs(2, 2, 0)], [RanAs(0, 1), RanAs(2, 2), RanAs(1, 1)])
    else if k == 12 then
      Now([Over(1), Over(1), Over(2), Freed(2, None, 1)], [], FEE + FEE, [[0, 1], [2, 1, 3]],
          [SentAs(0, 1, 0), SentAs(1, 1, 1), SentAs(2, 2, 0)], [RanAs(0, 1), RanAs(2, 2), RanAs(1, 1)])
    else
      Now([Over(1), Over(1), Over(2), Called(None, 1)], [], FEE + FEE, [[0, 1], [2, 1, 3]],
          [SentAs(0, 1, 0), SentAs(1, 1, 1), SentAs(2, 2, 0), SentAs(3, 1, 2)], [RanAs(0, 1), RanAs(2, 2), RanAs(1, 1)])
  }

  function ResetScene(k: nat): Scene { if k < 7 then ResetEarly(k) else ResetLate(k) }

  const RESET_SCRIPT: seq<Step> := [
    BatchStep(0, [0, 1]), Go(Callback(0, false)), Go(Tx(ANYONE, 0, ResetBatchTail)), BatchStep(0, [2, 1, 3]),
    Go(Target(0, false)), Go(Event.Chain(0)), Go(Callback(1, false)), Go(Callback(2, false)), Go(Target(2, false)),
    Go(Event.Chain(2)), Go(Target(1, false)), Go(Event.Chain(1)), Go(Callback(3, false))
  ]

  lemma ResetFollowsEarly()
    ensures ResetScene(1) == Started(ResetScene(0), [0, 1])
    ensures ResetScene(2) == Dispatched(ResetScene(1), 0, 0)
    ensures ResetScene(3) == ResetScene(2).(tail := [])
    ensures ResetScene(4) == Started(ResetScene(3), [2, 1, 3])
  {
  }

  lemma ResetFollowsMiddle()
    ensures ResetScene(5) == Arrived(ResetScene(4), 0, 0)
    ensures ResetScene(6) == Linked(ResetScene(5), 0, 0)
    ensures ResetScene(7) == Dispatched(ResetScene(6), 1, 0)
    ensures ResetScene(8) == Dispatched(ResetScene(7), 2, 0)
  {
  }

  lemma ResetFollowsLate()
    ensures ResetScene(9) == Arrived(ResetScene(8), 2, 0)
    ensures ResetScene(10) == Broken(ResetScene(9), 2)
    ensures ResetScene(11) == Arrived(ResetScene(10), 1, 0)
    ensures ResetScene(12) == Linked(ResetScene(11), 1, 0)
    ensures ResetScene(13) == Dispatched(ResetScene(12), 3, 0)
  {
  }

  lemma ResetLeadsFirst(k: nat)
    requires k < 2
    ensures Leads(ResetScene(k), RESET_SCRIPT[k], ResetScene(k + 1))
  {
    ResetFollowsEarly();
    if k == 0 { Starts(ResetScene(0), [0, 1]); }
    else { Dispatches(ResetScene(1), 0, 0); }
  }

  lemma ResetLeadsEarly(k: nat)
    requires 2 <= k < 4
    ensures Leads(ResetScene(k), RESET_SCRIPT[k], ResetScene(k + 1))
  {
    ResetFollowsEarly();
    if k == 2 { Resets(ResetScene(2)); }
    else { Starts(ResetScene(3), [2, 1, 3]); }
  }

  lemma ResetLeadsMiddle(k: nat)
    requires 4 <= k < 8
    ensures Leads(ResetScene(k), RESET_SCRIPT[k], ResetScene(k + 1))
  {
    ResetFollowsMiddle();
    if k == 4 { Arrives(ResetScene(4), 0, 0); }
    else if k == 5 { Links(ResetScene(5), 0, 0); }
    else if k == 6 { Dispatches(ResetScene(6), 1, 0); }
    else { Dispatches(ResetScene(7), 2, 0); }
  }

  lemma ResetLeadsLate(k: nat)
    requires 8 <= k < 13
    ensures Leads(ResetScene(k), RESET_SCRIPT[k], ResetScene(k + 1))
    ensures k == 9 ==> OutcomeOf(HOST, WorldOf(ResetScene(k)), RESET_SCRIPT[k]) == Panic(TailMismatch)
  {
    ResetFollowsLate();
    if k == 8 { Arrives(ResetScene(8), 2, 0); }
    else if k == 9 { Breaks(ResetScene(9), 2); }
    else if k == 10 { Arrives(ResetScene(10), 1, 0); }
    else if k == 11 { Links(ResetScene(11), 1, 0); }
    else { Dispatches(ResetScene(12), 3, 0); }
  }

  lemma ResetScripted()
    ensures Scripted(ResetScene, RESET_SCRIPT)
  {
    forall k | 0 <= k < |RESET_SCRIPT| ensures Leads(ResetScene(k), RESET_SCRIPT[k], ResetScene(k + 1)) {
      if k < 2 {
        ResetLeadsFirst(k);
      } else if k < 4 {
        ResetLeadsEarly(k);
      } else if k < 8 {
        ResetLeadsMiddle(k);
      } else {
        ResetLeadsLate(k);
      }
    }
  }

  lemma ResetSent()
    ensures SentIn(ResetScene(13).trace, 1) == [SentAs(0, 1, 0), SentAs(1, 1, 1), SentAs(3, 1, 2)]
  {
    SentOfFour(SentAs(0, 1, 0), SentAs(1, 1, 1), SentAs(2, 2, 0), SentAs(3, 1, 2), 1);
  }

  lemma ResetFacts()
    ensures Fits(ResetScene(2)) && Token(WorldOf(ResetScene(2)).intents[0].phase)
    ensures Fits(ResetScene(6)) && |WorldOf(ResetScene(6)).intents| == 4
    ensures Token(WorldOf(ResetScene(6)).intents[1].phase) && Token(WorldOf(ResetScene(6)).intents[2].phase)
    ensures Fits(ResetScene(13)) && ResetScene(13).batches == [[0, 1], [2, 1, 3]]
    ensures ResetScene(13).trace == [SentAs(0, 1, 0), SentAs(1, 1, 1), SentAs(2, 2, 0), SentAs(3, 1, 2)]
    ensures !BatchOk(WorldOf(ResetScene(13)), 1)
  {
    ResetSent();
  }

  lemma ResetPlayed() returns (ws: seq<World>, steps: seq<Step>)
    ensures Plays(ws, steps, 4, ResetScene, RESET_SCRIPT, 13)
    ensures forall k :: 0 <= k < 18 ==> Vets(HOST, ws[k], steps[k]) && (IsReset(steps[k]) <==> k == 7)
  {
    ResetScripted();
    ws, steps := Played(false, 4, ResetScene, RESET_SCRIPT, 13);
    AllVetted(ws, steps, 4, ResetScene, RESET_SCRIPT);
  }

  // Every approval is vetted, and one reset happens while a chain receipt is live: then two chain tokens are
  // live at once, continue_chain panics on a mismatched tail, the intents of batch [2, 1, 3] are dispatched in
  // the order 1, 2, 3, and batch [0, 1] dispatches an intent it never held.
  lemma ResetBreaksTheOrder() returns (ws: seq<World>, steps: seq<Step>)
    ensures GateRun(HOST, ws, steps) && |steps| == 18
    ensures forall k :: 0 <= k < 18 ==> Vets(HOST, ws[k], steps[k]) && (IsReset(steps[k]) <==> k == 7)
    ensures TokenLive(ws[7])
    ensures |ws[11].intents| == 4 && Token(ws[11].intents[1].phase) && Token(ws[11].intents[2].phase)
    ensures Enabled(ws[14], steps[14]) && OutcomeOf(HOST, ws[14], steps[14]) == Panic(TailMismatch)
    ensures ws[18].batches == [[0, 1], [2, 1, 3]] && !BatchOk(ws[18], 1)
    ensures ws[18].trace == [SentAs(0, 1, 0), SentAs(1, 1, 1), SentAs(2, 2, 0), SentAs(3, 1, 2)]
  {
    ws, steps := ResetPlayed();
    ResetFacts();
    ResetLeadsLate(9);
    assert IsScene(ws[7], ResetScene(2)) && IsScene(ws[11], ResetScene(6)) && IsScene(ws[14], ResetScene(9));
    assert IsScene(ws[18], ResetScene(13)) && steps[14] == RESET_SCRIPT[9];
    assert Token(ws[7].intents[0].phase);
  }

  // ---- a call the gate makes to itself ----

  function Selfish(slots: seq<Slot>, tail: seq<u64>, collected: u128, batches: seq<seq<u64>>, trace: seq<Sent>,
                   ran: seq<Ran>): Scene {
    Scene(true, 0, slots, tail, collected, batches, trace, ran)
  }

  const SELF_SENT := Sent(0, SELF_CALL, 0, None, 0)
  const SELF_RAN := Ran(SELF_CALL, FromGate(0, 0))
  const SELF_CALLED := Slot(Calling(SELF_CALL, None, 0), 0)

  // Intent 0, whose call is the gate's own continue_chain, is released alone and dispatched; batch [2, 1, 3] is
  // started; then the gate's call to itself runs, and releases intent 1 before intent 2 has been dispatched.
  function SelfEarly(k: nat): Scene {
    if k == 0 then
      Selfish([WAITS, WAITS, WAITS, WAITS], [], 0, [], [], [])
    else if k == 1 then
      Selfish([Slot(ALONE, 0), WAITS, WAITS, WAITS], [], FEE, [], [], [])
    else if k == 2 then
      Selfish([SELF_CALLED, WAITS, WAITS, WAITS], [], FEE, [], [SELF_SENT], [])
    else if k == 3 then
      Selfish([SELF_CALLED, WAITS, Freed(0, Some(1), 1), WAITS], [1, 3], FEE + FEE, [[2, 1, 3]], [SELF_SENT], [])
    else
      Selfish([Over(0), Freed(7, Some(3), 1), Freed(0, Some(1), 1), WAITS], [3], FEE + FEE, [[2, 1, 3]],
              [SELF_SENT], [SELF_RAN])
  }

  // Both chains dispatch, and the continue_chain of the first finds its next intent gone.
  function SelfLate(k: nat): Scene {
    if k == 5 then
      Selfish([Over(0), Called(Some(Then(3, 8)), 1), Freed(0, Some(1), 1), WAITS], [3], FEE + FEE, [[2, 1, 3]],
              [SELF_SENT, SentAs(1, 1, 7)], [SELF_RAN])
    else if k == 6 then
      Selfish([Over(0), Called(Some(Then(3, 8)), 1), Called(Some(Then(1, 1)), 1), WAITS], [3], FEE + FEE, [[2, 1, 3]],
              [SELF_SENT, SentAs(1, 1, 7), SentAs(2, 1, 0)], [SELF_RAN])
    else
      Selfish([Over(0), Called(Some(Then(3, 8)), 1), Chained(Then(1, 1), 1), WAITS], [3], FEE + FEE, [[2, 1, 3]],
              [SELF_SENT, SentAs(1, 1, 7), SentAs(2, 1, 0)], [SELF_RAN, RanAs(2, 1)])
  }

  function SelfScene(k: nat): Scene { if k < 5 then SelfEarly(k) else SelfLate(k) }

  const SELF_SCRIPT: seq<Step> := [
    ApproveStep(0, 0), Go(Callback(0, false)), BatchStep(0, [2, 1, 3]), Go(Target(0, false)), Go(Callback(1, false)),
    Go(Callback(2, false)), Go(Target(2, false))
  ]

  lemma SelfFollows()
    ensures SelfScene(1) == Singled(SelfScene(0), 0)
    ensures SelfScene(2) == Dispatched(SelfScene(1), 0, 0)
    ensures SelfScene(3) == Started(SelfScene(2), [2, 1, 3])
    ensures SelfScene(4) == Pulled(SelfScene(3), 0)
  {
  }

  lemma SelfFollowsLate()
    ensures SelfScene(5) == Dispatched(SelfScene(4), 1, 0)
    ensures SelfScene(6) == Dispatched(SelfScene(5), 2, 0)
    ensures SelfScene(7) == Arrived(SelfScene(6), 2, 0)
  {
  }

  lemma SelfLeads(k: nat)
    requires k < 4
    ensures Leads(SelfScene(k), SELF_SCRIPT[k], SelfScene(k + 1))
  {
    SelfFollows();
    if k == 0 { Singles(SelfScene(0), 0); }
    else if k == 1 { Dispatches(SelfScene(1), 0, 0); }
    else if k == 2 { Starts(SelfScene(2), [2, 1, 3]); }
    else { Pulls(SelfScene(3), 0); }
  }

  lemma SelfLeadsLate(k: nat)
    requires 4 <= k < 7
    ensures Leads(SelfScene(k), SELF_SCRIPT[k], SelfScene(k + 1))
  {
    SelfFollowsLate();
    if k == 4 { Dispatches(SelfScene(4), 1, 0); }
    else if k == 5 { Dispatches(SelfScene(5), 2, 0); }
    else { Arrives(SelfScene(6), 2, 0); }
  }

  // Alone, the gate's call to itself finds an empty tail.
  lemma SelfAlonePanics()
    ensures Fits(SelfScene(2)) && Enabled(WorldOf(SelfScene(2)), Go(Target(0, false)))
    ensures OutcomeOf(HOST, WorldOf(SelfScene(2)), Go(Target(0, false))) == Panic(TailEmpty)
  {
    assert SelfChain(HOST, SELF_CALL) == Some(Then(1, 7));
  }

  // The chain it overtook finds its next intent gone.
  lemma SelfPanics()
    ensures Fits(SelfScene(7)) && Enabled(WorldOf(SelfScene(7)), Go(Event.Chain(2)))
    ensures OutcomeOf(HOST, WorldOf(SelfScene(7)), Go(Event.Chain(2))) == Panic(TailMismatch)
  {
    Breaks(SelfScene(7), 2);
  }

  lemma SelfSent()
    ensures SentIn(SelfScene(7).trace, 1) == [SentAs(1, 1, 7), SentAs(2, 1, 0)]
  {
    SentOfThree(SELF_SENT, SentAs(1, 1, 7), SentAs(2, 1, 0), 1);
  }

  lemma SelfFacts()
    ensures Fits(SelfScene(4)) && |WorldOf(SelfScene(4)).intents| == 4
    ensures Token(WorldOf(SelfScene(4)).intents[1].phase) && Token(WorldOf(SelfScene(4)).intents[2].phase)
    ensures Fits(SelfScene(7)) && SelfScene(7).batches == [[2, 1, 3]]
    ensures !BatchOk(WorldOf(SelfScene(7)), 1)
  {
    SelfSent();
  }

  // Only the approval of intent 0 lets a call to the gate through.
  lemma SelfVets(k: nat)
    requires k < 7 && Fits(SelfScene(k)) && k != 0
    ensures Vets(HOST, WorldOf(SelfScene(k)), SELF_SCRIPT[k])
  {
  }

  lemma SelfPlayed() returns (ws: seq<World>, steps: seq<Step>)
    ensures Plays(ws, steps, 4, SelfScene, SELF_SCRIPT, 7)
    ensures forall k :: 0 <= k < 12 ==> !IsReset(steps[k]) && (k == 5 || Vets(HOST, ws[k], steps[k]))
  {
    forall k | 0 <= k < 7 ensures Leads(SelfScene(k), SELF_SCRIPT[k], SelfScene(k + 1)) {
      if k < 4 {
        SelfLeads(k);
      } else {
        SelfLeadsLate(k);
      }
    }
    ws, steps := Played(true, 4, SelfScene, SELF_SCRIPT, 7);
    forall k | 0 <= k < 12 ensures !IsReset(steps[k]) && (k == 5 || Vets(HOST, ws[k], steps[k])) {
      if k > 5 {
        assert IsScene(ws[k], SelfScene(k - 5)) && steps[k] == SELF_SCRIPT[k - 5];
        SelfVets(k - 5);
      }
    }
  }

  // No reset, and one approval of a call addressed to the gate: alone, that call would panic on an empty tail;
  // here two chain tokens are live at once, batch [2, 1, 3] has dispatched 1 and then 2, and continue_chain is
  // about to panic on a mismatched tail.
  lemma SelfCallBreaksTheOrder() returns (ws: seq<World>, steps: seq<Step>)
    ensures GateRun(HOST, ws, steps) && |steps| == 12
    ensures forall k :: 0 <= k < 12 ==> !IsReset(steps[k]) && (k == 5 || Vets(HOST, ws[k], steps[k]))
    ensures Enabled(ws[7], Go(Target(0, false))) && OutcomeOf(HOST, ws[7], Go(Target(0, false))) == Panic(TailEmpty)
    ensures |ws[9].intents| == 4 && Token(ws[9].intents[1].phase) && Token(ws[9].intents[2].phase)
    ensures ws[12].batches == [[2, 1, 3]] && !BatchOk(ws[12], 1)
    ensures SentIn(ws[12].trace, 1) == [SentAs(1, 1, 7), SentAs(2, 1, 0)]
    ensures Enabled(ws[12], Go(Event.Chain(2))) && OutcomeOf(HOST, ws[12], Go(Event.Chain(2))) == Panic(TailMismatch)
  {
    ws, steps := SelfPlayed();
    SelfFacts();
    SelfAlonePanics();
    SelfPanics();
    SelfSent();
    assert IsScene(ws[7], SelfScene(2)) && IsScene(ws[9], SelfScene(4)) && IsScene(ws[12], SelfScene(7));
  }

  // ---- the seam between two batches ----

  function SeamScene(k: nat): Scene {
    if k == 0 then
      Now([WAITS, WAITS], [], 0, [], [], [])
    else if k == 1 then
      Now([Freed(0, None, 1), WAITS], [], FEE, [[0]], [], [])
    else if k == 2 then
      Now([Freed(0, None, 1), Freed(0, None, 2)], [], FEE + FEE, [[0], [1]], [], [])
    else if k == 3 then
      Now([Freed(0, None, 1), Called(None, 2)], [], FEE + FEE, [[0], [1]], [SentAs(1, 2, 0)], [])
    else
      Now([Called(None, 1), Called(None, 2)], [], FEE + FEE, [[0], [1]], [SentAs(1, 2, 0), SentAs(0, 1, 0)], [])
  }

  const SEAM_SCRIPT: seq<Step> := [BatchStep(0, [0]), BatchStep(0, [1]), Go(Callback(1, false)), Go(Callback(0, false))]

  lemma SeamFollows()
    ensures SeamScene(1) == Started(SeamScene(0), [0])
    ensures SeamScene(2) == Started(SeamScene(1), [1])
    ensures SeamScene(3) == Dispatched(SeamScene(2), 1, 0)
    ensures SeamScene(4) == Dispatched(SeamScene(3), 0, 0)
  {
  }

  lemma SeamLeads(k: nat)
    requires k < 4
    ensures Leads(SeamScene(k), SEAM_SCRIPT[k], SeamScene(k + 1))
  {
    SeamFollows();
    if k == 0 { Starts(SeamScene(0), [0]); }
    else if k == 1 { Starts(SeamScene(1), [1]); }
    else if k == 2 { Dispatches(SeamScene(2), 1, 0); }
    else { Dispatches(SeamScene(3), 0, 0); }
  }

  // In a disciplined run, the last intent of batch 1 is dispatched after the first of batch 2.
  lemma SeamReordersBatches() returns (ws: seq<World>, steps: seq<Step>)
    ensures GateRun(HOST, ws, steps) && |steps| == 7 && Disciplined(HOST, ws, steps)
    ensures ws[7].batches == [[0], [1]] && ws[7].trace == [SentAs(1, 2, 0), SentAs(0, 1, 0)]
  {
    forall k | 0 <= k < 4 ensures Leads(SeamScene(k), SEAM_SCRIPT[k], SeamScene(k + 1)) {
      SeamLeads(k);
    }
    ws, steps := Played(false, 2, SeamScene, SEAM_SCRIPT, 4);
    PlainRun(ws, steps, 2, SeamScene, SEAM_SCRIPT);
    assert IsScene(ws[7], SeamScene(4));
  }

  // ---- a repeated id ----

  function RepeatScene(k: nat): Scene {
    if k == 0 then
      Now([WAITS], [], 0, [], [], [])
    else if k == 1 then
      Now([Freed(0, Some(0), 1)], [0], FEE, [[0, 0]], [], [])
    else if k == 2 then
      Now([Called(Some(Then(0, 1)), 1)], [0], FEE, [[0, 0]], [SentAs(0, 1, 0)], [])
    else if k == 3 then
      Now([Chained(Then(0, 1), 1)], [0], FEE, [[0, 0]], [SentAs(0, 1, 0)], [RanAs(0, 1)])
    else
      Now([Over(1)], [0], FEE, [[0, 0]], [SentAs(0, 1, 0)], [RanAs(0, 1)])
  }

  const REPEAT_SCRIPT: seq<Step> := [
    BatchStep(0, [0, 0]), Go(Callback(0, false)), Go(Target(0, false)), Go(Event.Chain(0))
  ]

  lemma RepeatFollows()
    ensures RepeatScene(1) == Started(RepeatScene(0), [0, 0])
    ensures RepeatScene(2) == Dispatched(RepeatScene(1), 0, 0)
    ensures RepeatScene(3) == Arrived(RepeatScene(2), 0, 0)
    ensures RepeatScene(4) == Broken(RepeatScene(3), 0)
  {
  }

  lemma RepeatLeads(k: nat)
    requires k < 4
    ensures Leads(RepeatScene(k), REPEAT_SCRIPT[k], RepeatScene(k + 1))
    ensures k == 3 ==> OutcomeOf(HOST, WorldOf(RepeatScene(k)), REPEAT_SCRIPT[k]) == Panic(UnknownIntent)
  {
    RepeatFollows();
    if k == 0 { Starts(RepeatScene(0), [0, 0]); }
    else if k == 1 { Dispatches(RepeatScene(1), 0, 0); }
    else if k == 2 { Arrives(RepeatScene(2), 0, 0); }
    else { Breaks(RepeatScene(3), 0); }
  }

  lemma RepeatFacts()
    ensures Fits(RepeatScene(4)) && Stalled(WorldOf(RepeatScene(4))) && !InFlight(WorldOf(RepeatScene(4)), 1)
    ensures RanIn(RepeatScene(4).ran, 1) == [RanAs(0, 1)]
  {
    assert [RanAs(0, 1)] == [] + [RanAs(0, 1)];
    RanAppend([], RanAs(0, 1), 1);
  }

  // Batch [0, 0] passes the pre-validation, runs its intent once, and stalls: continue_chain panics because the
  // intent it should release is no longer pending.
  lemma RepeatedIdStallsTheChain() returns (ws: seq<World>, steps: seq<Step>)
    ensures GateRun(HOST, ws, steps) && |steps| == 6 && Disciplined(HOST, ws, steps)
    ensures ws[6].batches == [[0, 0]] && Stalled(ws[6]) && !InFlight(ws[6], 1) && RanIn(ws[6].ran, 1) == [RanAs(0, 1)]
    ensures OutcomeOf(HOST, ws[5], steps[5]) == Panic(UnknownIntent)
  {
    forall k | 0 <= k < 4 ensures Leads(RepeatScene(k), REPEAT_SCRIPT[k], RepeatScene(k + 1)) {
      RepeatLeads(k);
    }
    ws, steps := Played(false, 1, RepeatScene, REPEAT_SCRIPT, 4);
    PlainRun(ws, steps, 1, RepeatScene, REPEAT_SCRIPT);
    RepeatFacts();
    RepeatLeads(3);
    assert IsScene(ws[5], RepeatScene(3)) && IsScene(ws[6], RepeatScene(4)) && steps[5] == REPEAT_SCRIPT[3];
  }

  // ---- an expired intent ----

  const LATE: u64 := 200

  function LateScene(k: nat): Scene {
    if k == 0 then
      Now([WAITS], [], 0, [], [], [])
    else if k == 1 then
      Now([Slot(ALONE, 0)], [], FEE, [], [], [])
    else
      Scene(false, LATE, [Slot(Calling(CALL, None, 0), LATE)], [], FEE, [], [Sent(0, CALL, 0, None, LATE)], [])
  }

  const LATE_SCRIPT: seq<Step> := [ApproveStep(0, 0), Step(LATE, Callback(0, false))]

  lemma LateLeads(k: nat)
    requires k < 2
    ensures Leads(LateScene(k), LATE_SCRIPT[k], LateScene(k + 1))
  {
    if k == 0 {
      Singles(LateScene(0), 0);
      assert LateScene(1) == Singled(LateScene(0), 0);
    } else {
      Dispatches(LateScene(1), 0, LATE);
      assert LateScene(2) == Dispatched(LateScene(1), 0, LATE);
    }
  }

  // An intent signed up to block 100 is accepted in block 0 and dispatched in block 200.
  lemma ExpiredIsDispatched() returns (ws: seq<World>, steps: seq<Step>, j: nat)
    ensures GateRun(HOST, ws, steps) && |steps| == 4 && Disciplined(HOST, ws, steps)
    ensures ws[4].trace == [Sent(0, CALL, 0, None, LATE)]
    ensures j < 2 && Authorises(HOST, ws[j], steps[j], 0, CALL)
    ensures DelegateOf(HOST, steps[j].event.call.signedDelegate).maxBlockHeight == EXPIRY < LATE
  {
    forall k | 0 <= k < 2 ensures Leads(LateScene(k), LATE_SCRIPT[k], LateScene(k + 1)) {
      LateLeads(k);
    }
    ws, steps := Played(false, 1, LateScene, LATE_SCRIPT, 2);
    PlainRun(ws, steps, 1, LateScene, LATE_SCRIPT);
    assert IsScene(ws[2], LateScene(0)) && IsScene(ws[4], LateScene(2));
    assert ws[2].gate.pending[0] == PendingIntent(0, ANYONE, CALL, 0, EXPIRY, 0);
    j := PendingShowsDelegate(HOST, ws, steps, 2, 0);
  }

  // ---- a batch on the eager schedule ----

  // Two submissions, released in reverse by one batch that starts in block 0; every receipt runs in the block
  // after the one that created it, and then someone else calls another target.
  function EagerScene(k: nat): Scene {
    var first, second := Sent(1, CALL, 1, Some(0), 1), Sent(0, CALL, 1, Some(1), 4);
    if k == 0 then
      Now([WAITS, WAITS], [], 0, [], [], [])
    else if k == 1 then
      Now([WAITS, Freed(0, Some(0), 1)], [0], FEE, [[1, 0]], [], [])
    else if k == 2 then
      Scene(false, 1, [WAITS, Slot(Calling(CALL, Some(Then(0, 1)), 1), 1)], [0], FEE, [[1, 0]], [first], [])
    else if k == 3 then
      Scene(false, 2, [WAITS, Slot(Continuing(Then(0, 1), 1), 2)], [0], FEE, [[1, 0]], [first], [RanAs(1, 1)])
    else if k == 4 then
      Scene(false, 3, [Slot(Resumed(ResumeSignal(true, Some(1), None), 1), 3), Slot(Finished(1), 3)], [], FEE, [[1, 0]],
            [first], [RanAs(1, 1)])
    else if k == 5 then
      Scene(false, 4, [Slot(Calling(CALL, None, 1), 4), Slot(Finished(1), 3)], [], FEE, [[1, 0]],
            [first, second], [RanAs(1, 1)])
    else if k == 6 then
      Scene(false, 5, [Slot(Finished(1), 5), Slot(Finished(1), 3)], [], FEE, [[1, 0]],
            [first, second], [RanAs(1, 1), RanAs(0, 1)])
    else
      Scene(false, 6, [Slot(Finished(1), 5), Slot(Finished(1), 3)], [], FEE, [[1, 0]], [first, second],
            [RanAs(1, 1), RanAs(0, 1), Ran(ELSEWHERE, FromOutside(ANYONE))])
  }

  const EAGER_SCRIPT: seq<Step> := [
    BatchStep(0, [1, 0]), Step(1, Callback(1, false)), Step(2, Target(1, false)), Step(3, Event.Chain(1)),
    Step(4, Callback(0, false)), Step(5, Target(0, false)), Step(6, Outside(ANYONE, ELSEWHERE))
  ]

  const EAGER_KINDS: seq<Kind> := [Start([1, 0]), Send(1), Arrive(1), Link(1), Send(0), Arrive(0), Foreign]

  lemma EagerFollows()
    ensures EagerScene(1) == Started(EagerScene(0), [1, 0])
    ensures EagerScene(2) == Dispatched(EagerScene(1), 1, 1)
    ensures EagerScene(3) == Arrived(EagerScene(2), 1, 2)
    ensures EagerScene(4) == Linked(EagerScene(3), 1, 3)
  {
  }

  lemma EagerFollowsLate()
    ensures EagerScene(5) == Dispatched(EagerScene(4), 0, 4)
    ensures EagerScene(6) == Arrived(EagerScene(5), 0, 5)
    ensures EagerScene(7) == Passed(EagerScene(6), 6)
  {
  }

  lemma EagerLeads(k: nat)
    requires k < 4
    ensures Leads(EagerScene(k), EAGER_SCRIPT[k], EagerScene(k + 1))
    ensures KindOf(HOST, WorldOf(EagerScene(k)), EAGER_SCRIPT[k]) == EAGER_KINDS[k]
  {
    EagerFollows();
    if k == 0 { Starts(EagerScene(0), [1, 0]); }
    else if k == 1 { Dispatches(EagerScene(1), 1, 1); }
    else if k == 2 { Arrives(EagerScene(2), 1, 2); }
    else { Links(EagerScene(3), 1, 3); }
  }

  lemma EagerLeadsLate(k: nat)
    requires 4 <= k < 7
    ensures Leads(EagerScene(k), EAGER_SCRIPT[k], EagerScene(k + 1))
    ensures KindOf(HOST, WorldOf(EagerScene(k)), EAGER_SCRIPT[k]) == EAGER_KINDS[k]
  {
    EagerFollowsLate();
    if k == 4 { Dispatches(EagerScene(4), 0, 4); }
    else if k == 5 { Arrives(EagerScene(5), 0, 5); }
    else { Passes(EagerScene(6), 6); }
  }

  lemma EagerAttends(k: nat)
    requires 1 <= k < 7
    ensures Fits(EagerScene(k)) && Fits(EagerScene(k + 1))
    ensures Attends(WorldOf(EagerScene(k)), WorldOf(EagerScene(k + 1)), EAGER_KINDS[k], 1, [1, 0], 200)
  {
  }

  lemma EagerRan()
    ensures RanIn(EagerScene(7).ran, 1) == [RanAs(1, 1), RanAs(0, 1)]
  {
    RanOfThree(RanAs(1, 1), RanAs(0, 1), Ran(ELSEWHERE, FromOutside(ANYONE)), 1);
  }

  lemma EagerFacts()
    ensures var w, w' := WorldOf(EagerScene(0)), WorldOf(EagerScene(7));
            && w.batches == [] && AllWait(w, [1, 0]) && InTime(w, [1, 0], 0, 200)
            && w'.block == 6 && |w'.intents| == 2 && !InFlight(w', 1)
            && LeftToChain(w'.intents[0].phase, 1) && LeftToChain(w'.intents[1].phase, 1)
            && OnlyBatchCalls(w, w', ANYONE, 1)
  {
    EagerRan();
  }

  lemma EagerPlayed() returns (ws: seq<World>, steps: seq<Step>)
    ensures Plays(ws, steps, 2, EagerScene, EAGER_SCRIPT, 7) && Disciplined(HOST, ws, steps)
    ensures forall j :: 3 <= j < 10 ==> Kinds(HOST, ws, steps)[j] == EAGER_KINDS[j - 3]
  {
    forall k | 0 <= k < 7
      ensures Leads(EagerScene(k), EAGER_SCRIPT[k], EagerScene(k + 1))
      ensures KindOf(HOST, WorldOf(EagerScene(k)), EAGER_SCRIPT[k]) == EAGER_KINDS[k]
    {
      if k < 4 {
        EagerLeads(k);
      } else {
        EagerLeadsLate(k);
      }
    }
    ws, steps := Played(false, 2, EagerScene, EAGER_SCRIPT, 7);
    PlainRun(ws, steps, 2, EagerScene, EAGER_SCRIPT);
    forall j | 3 <= j < 10 ensures KindOf(HOST, ws[j], steps[j]) == EAGER_KINDS[j - 3] {
      assert IsScene(ws[j], EagerScene(j - 3)) && steps[j] == EAGER_SCRIPT[j - 3];
    }
  }

  // A run that meets the hypotheses of BatchRefinesLoop and of EagerBatchOnTime: a batch of two intents, released
  // in the opposite of their submission order, runs to its end with no other call to its target.
  lemma BatchRunsToItsEnd() returns (ws: seq<World>, steps: seq<Step>)
    ensures GateRun(HOST, ws, steps) && |steps| == 10 && Disciplined(HOST, ws, steps)
    ensures Kinds(HOST, ws, steps)[3] == Start([1, 0]) && |ws[3].batches| == 0 && AllWait(ws[3], [1, 0])
    ensures InTime(ws[3], [1, 0], ws[4].block, 200) && ws[4].block + 3 * 2 <= ws[10].block
    ensures forall j :: 3 < j < 10 ==> Attends(ws[j], ws[j + 1], Kinds(HOST, ws, steps)[j], 1, [1, 0], 200)
    ensures |ws[10].intents| == 2 && !InFlight(ws[10], 1) && OnlyBatchCalls(ws[3], ws[10], ANYONE, 1)
    ensures LeftToChain(ws[10].intents[0].phase, 1) && LeftToChain(ws[10].intents[1].phase, 1)
    ensures RanIn(ws[10].ran, 1) == [RanAs(1, 1), RanAs(0, 1)]
  {
    ws, steps := EagerPlayed();
    EagerFacts();
    EagerRan();
    assert IsScene(ws[3], EagerScene(0)) && IsScene(ws[4], EagerScene(1)) && IsScene(ws[10], EagerScene(7));
    forall j | 3 < j < 10 ensures Attends(ws[j], ws[j + 1], Kinds(HOST, ws, steps)[j], 1, [1, 0], 200) {
      EagerAttends(j - 3);
      assert IsScene(ws[j], EagerScene(j - 3)) && IsScene(ws[j + 1], EagerScene(j - 2));
    }
  }
}
