/** When the harness is asked for a prompt again. A steer whose effect is unknown is not sent again
(InteractionTheorems.SteerNeverResent). A prompt is asked for again as long as it is its occurrence's own and its
generation, taken up again over what is recorded of its turns, comes to a turn without an outcome
(interactive.go:255-330, session.go:257-316, 405-419). */
module InteractionPrompts {
  import opened Wrappers
  import opened Interaction
  import opened InteractionProofs
  import opened InteractionTheorems
  import opened InteractionProcess

  /** No turn of this prompt was asked since. */
  ghost predicate NoneSince(trace: seq<Event>, trace': seq<Event>, n: Node, id: Id) {
    forall turn :: NotSince(trace, trace', Asked(n, id, turn))
  }

  ghost predicate MayAsk(w: World, n: Node, id: Id) {
    exists more :: IsRun(w, more) && !NoneSince(w.trace, After(w, more).trace, n, id)
  }

  // ---- where a generation can come to a turn that it asks ----

  /** A recorded provider failure is followed by another turn; no other recorded outcome is. */
  predicate Retried(a: Answer) { a.Erred? && a.provider }

  /** From a turn that is due: it has no outcome, or it has a provider failure, the first, and the next has none. */
  predicate DueAsks(settled: map<(Node, Id, nat), Answer>, n: Node, id: Id, turn: nat, failures: nat) {
    (n, id, turn) in settled ==> Retried(settled[(n, id, turn)]) && failures == 0 && (n, id, turn + 1) !in settled
  }

  /** From a turn that is being asked, if its answer may still be followed by another. */
  predicate Asks(settled: map<(Node, Id, nat), Answer>, n: Node, id: Id, g: Gen) {
    match g.stage
    case Due => DueAsks(settled, n, id, g.turn, g.failures)
    case Running =>
      || (g.invalid + 1 < INVALID && DueAsks(settled, n, id, g.turn + 1, g.failures))
      || (g.failures == 0 && DueAsks(settled, n, id, g.turn + 1, 1))
    case Over(_) => false
  }

  /** What a later process can ask: the first turn, or the second if the first is recorded as a provider failure. */
  predicate AsksAgain(w: World, n: Node, id: Id) { Asks(w.settled, n, id, START) }

  /** What this process can still ask. */
  predicate AsksOn(w: World, n: Node, id: Id) {
    && InTurn(w, n) && (n, id) in w.gens && Asks(w.settled, n, id, w.gens[(n, id)])
  }

  predicate CanAsk(w: World, n: Node, id: Id) {
    State(w, n).active == Some(id) && (AsksAgain(w, n, id) || AsksOn(w, n, id))
  }

  // ---- once it cannot, it never can ----

  ghost predicate Spent(w: World, n: Node, id: Id) { ConsumedBy(w.states, n, id) && !CanAsk(w, n, id) }

  lemma FollowAsks(settled: map<(Node, Id, nat), Answer>, n: Node, id: Id, g: Gen, a: Answer, note: Note, canceled: bool)
    requires GenOk(g) && g.stage.Running?
    requires !Asks(settled, n, id, g)
    ensures !Asks(settled, n, id, Follow(g, a, canceled)) && !Asks(settled, n, id, Returned(g, a, note, canceled))
  {
  }

  lemma FollowRecorded(settled: map<(Node, Id, nat), Answer>, n: Node, id: Id, g: Gen, canceled: bool)
    requires GenOk(g) && g.stage.Due? && (n, id, g.turn) in settled && Replays(settled[(n, id, g.turn)])
    requires !Asks(settled, n, id, g)
    ensures !Asks(settled, n, id, Follow(g, settled[(n, id, g.turn)], canceled))
  {
  }

  /** A turn's outcome tells nothing of later turns, and of itself only that it is not asked again. */
  lemma MoreSettled(settled: map<(Node, Id, nat), Answer>, n: Node, id: Id, g: Gen, turn: nat, a: Answer)
    requires (n, id, turn) !in settled && !Asks(settled, n, id, g)
    ensures !Asks(settled[(n, id, turn) := a], n, id, g)
  {
  }

  lemma AskSpends(w: World, at: Address, canceled: bool, n: Node, id: Id)
    requires Inv(w) && Enabled(w, Ask(at, canceled)) && Key(w, at) == (n, id) && !Asks(w.settled, n, id, w.gens[(n, id)])
    ensures var w' := DoAsk(w, at, canceled);
            w'.trace == w.trace && w'.settled == w.settled && !Asks(w'.settled, n, id, w'.gens[(n, id)])
  {
    hide Follow, Asks, Inv;
    GensOk(w, (n, id));
    DueIsRecorded(w, n, id);
    FollowRecorded(w.settled, n, id, w.gens[(n, id)], canceled);
  }

  lemma DueIsRecorded(w: World, n: Node, id: Id)
    requires Inv(w) && (n, id) in w.gens && w.gens[(n, id)].stage.Due? && !Asks(w.settled, n, id, w.gens[(n, id)])
    ensures (n, id, w.gens[(n, id)].turn) in w.settled && Replays(w.settled[(n, id, w.gens[(n, id)].turn)])
  {
    hide Ids, Lists, Actives, Loops, Sends, Finishes, Transcripts;
  }

  lemma ReturnSpends(w: World, at: Address, a: Answer, note: Note, canceled: bool, n: Node, id: Id)
    requires Inv(w) && CanReturn(w, at, a, note) && Key(w, at) == (n, id)
    requires !Asks(w.settled, n, id, w.gens[(n, id)])
    ensures var w' := DoReturn(w, at, a, note, canceled); !Asks(w'.settled, n, id, w'.gens[(n, id)])
    ensures !AsksAgain(w, n, id) ==> !AsksAgain(DoReturn(w, at, a, note, canceled), n, id)
  {
    hide Asks, Inv, Returned;
    var g := w.gens[(n, id)];
    GensOk(w, (n, id));
    if g.stage.Running? {
      RunningIsOpen(w, n, id);
      FollowAsks(w.settled, n, id, g, a, note, canceled);
      if note.Kept? {
        MoreSettled(w.settled, n, id, Returned(g, a, note, canceled), g.turn, note.answer);
        if !AsksAgain(w, n, id) { MoreSettled(w.settled, n, id, START, g.turn, note.answer); }
      }
    } else {
      DueIsRecorded(w, n, id);
      PlainEnds(w.settled, n, id, g, a, note, canceled);
    }
  }

  lemma PlainEnds(settled: map<(Node, Id, nat), Answer>, n: Node, id: Id, g: Gen, a: Answer, note: Note, canceled: bool)
    requires a.Erred? && !a.invalid && !a.provider
    ensures !Asks(settled, n, id, Returned(g, a, note, canceled))
  {
  }

  lemma ElsewhereSame(settled: map<(Node, Id, nat), Answer>, settled': map<(Node, Id, nat), Answer>, n: Node, id: Id, g: Gen)
    requires forall k :: (n, id, k) in settled <==> (n, id, k) in settled'
    requires forall k | (n, id, k) in settled :: settled[(n, id, k)] == settled'[(n, id, k)]
    ensures Asks(settled, n, id, g) == Asks(settled', n, id, g)
  {
  }

  /** Unless the step is its own generation's, the generation can ask what it could. */
  lemma OthersSpend(w: World, l: Label, n: Node, id: Id, g: Gen)
    requires Inv(w) && Enabled(w, l)
    requires l.Return? ==> Key(w, l.at) != (n, id)
    ensures Asks(w.settled, n, id, g) == Asks(Apply(w, l).settled, n, id, g)
  {
    hide Inv, Enabled, Apply, Asks;
    SettledStays(w, l);
    ElsewhereSame(w.settled, Apply(w, l).settled, n, id, g);
  }

  /** The prompt is not taken up again by its own consumer, or from the start. */
  lemma LookSpends(w: World, l: Label, n: Node, id: Id)
    requires Inv(w) && Enabled(w, l) && l.Look? && ConsumedBy(w.states, n, id) && w.states[n].active == Some(id)
    ensures var w' := Apply(w, l);
            n.address in w'.loops && w'.loops[n.address].node == n && !w'.loops[n.address].phase.Idle? && (n, id) in w'.gens ==>
              w'.gens[(n, id)] == START || (n.address in w.loops && w.loops[n.address] == w'.loops[n.address]
                                            && (n, id) in w.gens && w.gens[(n, id)] == w'.gens[(n, id)])
  {
    hide Inv, DoLook;
    LoopIsIts(w, l.at);
    LookBegins(w, l.at, l.configured, l.committed, n, id);
    ActiveFacts(w, n, id);
    LookTakesUp(w, l.at, l.configured, l.committed, n, id);
  }

  lemma LookTakesUp(w: World, at: Address, configured: bool, committed: bool, n: Node, id: Id)
    requires at in w.loops && w.loops[at].node.address == at && w.loops[at].phase.Idle?
    requires State(w, n).active == Some(id) && id in w.inputs && w.inputs[id].id == id
    ensures var w' := DoLook(w, at, configured, committed);
            && (at != n.address && n.address in w'.loops ==> n.address in w.loops && w'.loops[n.address] == w.loops[n.address])
            && (at == n.address && at in w'.loops && w'.loops[at].node == n && !w'.loops[at].phase.Idle? ==>
                  w.loops[at].node == n && (n, id) in w'.gens && w'.gens[(n, id)] == START)
  {
    hide PendingAt, DoTake, FirstFinish;
    var m, q := w.loops[at].node, PendingAt(w, at);
    if State(w, m).active.Some? && State(w, m).active.value in w.inputs {
      TakeTakesUp(w, m, w.inputs[State(w, m).active.value], configured, committed);
    }
    if q != [] { TakeTakesUp(w, m, q[0], configured, committed); }
  }

  ghost predicate SameElsewhere(loops: map<Address, Loop>, loops': map<Address, Loop>, at: Address) {
    forall a | a != at :: (a in loops' <==> a in loops) && (a in loops ==> loops'[a] == loops[a])
  }

  lemma TakeTakesUp(w: World, m: Node, input: Input, configured: bool, committed: bool)
    ensures var w' := DoTake(w, m, input, configured, committed);
            SameElsewhere(w.loops, w'.loops, m.address)
    ensures var w' := DoTake(w, m, input, configured, committed);
            m.address in w'.loops ==> w'.loops[m.address].node == m
    ensures var w' := DoTake(w, m, input, configured, committed);
            m.address in w'.loops && !w'.loops[m.address].phase.Idle? ==> (m, input.id) in w'.gens && w'.gens[(m, input.id)] == START
  {
    hide Begun;
    if !(input.disposition in {Uncertain, Inflight} || !committed || input.content.configure || input.content.stop) {
      DispatchTakesUp(At(Commit(w, m, Begun(State(w, m), input.id)), m.address, m, Turn([])), m, input.id);
    }
  }

  lemma DispatchTakesUp(w: World, n: Node, id: Id)
    ensures var w' := Dispatch(w, n, id); w'.loops == w.loops && (n, id) in w'.gens && w'.gens[(n, id)] == START
  {
  }

  /** Where a consumer is in a turn after a step, it was in one before, unless it just took up a prompt. */
  lemma OthersInTurn(w: World, l: Label, n: Node)
    requires Inv(w) && Enabled(w, l) && !l.Look? && !l.Ask? && !l.Return? && InTurn(Apply(w, l), n)
    ensures InTurn(w, n)
  {
    hide Inv, PendingAt, DoComplete, DoAccept, DoClose, DoSteer, DoAnswer;
    match l {
      case Complete(at, outcome, delivered, recorded, committed) =>
        LoopIsIts(w, at);
        CompleteInTurn(w, at, outcome, delivered, recorded, committed, n);
      case Accept(id, c, terminal, turnMatches) => AcceptLoops(w, id, c, terminal, turnMatches);
      case CloseInputs(scope, count) => CloseLoops(w, scope, count);
      case Steer(at, recorded) => SteerLoops(w, at, recorded);
      case Answer(at, landed, failed, recorded) => AnswerLoops(w, at, landed, failed, recorded);
      case _ =>
    }
  }

  lemma SteerLoops(w: World, at: Address, recorded: bool)
    requires at in w.loops && w.loops[at].phase.Turn? && w.loops[at].phase.rest != []
    ensures SameElsewhere(w.loops, DoSteer(w, at, recorded).loops, at)
    ensures at in DoSteer(w, at, recorded).loops ==> DoSteer(w, at, recorded).loops[at].node == w.loops[at].node
  {
  }

  lemma AnswerLoops(w: World, at: Address, landed: bool, failed: bool, recorded: bool)
    requires at in w.loops && w.loops[at].phase.Sending?
    ensures var w' := DoAnswer(w, at, landed, failed, recorded);
            SameElsewhere(w.loops, w'.loops, at) && (at in w'.loops ==> w'.loops[at].node == w.loops[at].node)
  {
  }

  lemma CompleteInTurn(w: World, at: Address, outcome: Outcome, delivered: bool, recorded: bool, committed: bool, n: Node)
    requires at in w.loops && w.loops[at].node.address == at
    ensures var w' := DoComplete(w, at, outcome, delivered, recorded, committed);
            && (at in w'.loops ==> w'.loops[at].phase.Idle?)
            && (n.address != at && n.address in w'.loops ==> n.address in w.loops && w'.loops[n.address] == w.loops[n.address])
  {
    hide PendingAt, Closed, Published, PromptFate, Publishes;
  }

  predicate InTurn(w: World, n: Node) {
    n.address in w.loops && w.loops[n.address].node == n && !w.loops[n.address].phase.Idle?
  }

  lemma AgainStays(w: World, l: Label, n: Node, id: Id)
    requires Inv(w) && Enabled(w, l) && Spent(w, n, id) && w.states[n].active == Some(id)
    ensures !AsksAgain(Apply(w, l), n, id)
  {
    hide Inv, Asks, DoReturn, DoLook, DoComplete, PendingAt, Returned;
    if l.Return? && Key(w, l.at) == (n, id) {
      LoopIsIts(w, l.at);
      ReturnSpends(w, l.at, l.answer, l.note, l.canceled, n, id);
    } else {
      OthersSpend(w, l, n, id, START);
    }
  }

  lemma OnStays(w: World, l: Label, n: Node, id: Id)
    requires Inv(w) && Enabled(w, l) && Spent(w, n, id) && w.states[n].active == Some(id)
    ensures !AsksOn(Apply(w, l), n, id)
  {
    hide Inv, Asks, DoLook, DoComplete, PendingAt, Follow, Returned;
    if l.Look? {
      LookSpends(w, l, n, id);
      AgainStays(w, l, n, id);
      if (n, id) in w.gens { OthersSpend(w, l, n, id, w.gens[(n, id)]); }
    } else if l.Ask? {
      LoopIsIts(w, l.at);
      if Key(w, l.at) == (n, id) { AskSpends(w, l.at, l.canceled, n, id); }
    } else if l.Return? {
      LoopIsIts(w, l.at);
      ReturnStays(w, l, n, id);
    } else if !l.Crash? {
      OthersRecordNothing(w, l);
      if InTurn(Apply(w, l), n) { OthersInTurn(w, l, n); }
    }
  }

  lemma ReturnStays(w: World, l: Label, n: Node, id: Id)
    requires Inv(w) && Enabled(w, l) && l.Return? && !AsksOn(w, n, id) && w.loops[l.at].node.address == l.at
    ensures !AsksOn(Apply(w, l), n, id)
  {
    hide Inv, Asks, Returned;
    if Key(w, l.at) == (n, id) {
      ReturnSpends(w, l.at, l.answer, l.note, l.canceled, n, id);
    } else if (n, id) in w.gens {
      OthersSpend(w, l, n, id, w.gens[(n, id)]);
    }
  }

  lemma StaysSpent(w: World, l: Label, n: Node, id: Id)
    requires Inv(w) && Enabled(w, l) && Spent(w, n, id)
    ensures Spent(Apply(w, l), n, id)
  {
    hide Enabled, Apply, Inv, AsksOn, AsksAgain;
    StaysOff(w, l, n, id);
    if w.states[n].active == Some(id) {
      AgainStays(w, l, n, id);
      OnStays(w, l, n, id);
    }
  }

  lemma SpentIsQuiet(w: World, l: Label, n: Node, id: Id, turn: nat)
    requires Inv(w) && Enabled(w, l) && Spent(w, n, id)
    ensures Adds(w.trace, Apply(w, l).trace, Asked(n, id, turn))
  {
    hide Inv, Adds, Asks, DoLook, Follow, PendingAt, CanReturn;
    if l.Look? {
      LookAsksNone(w, l, Asked(n, id, turn));
    } else if l.Ask? && Key(w, l.at) == (n, id) {
      LoopIsIts(w, l.at);
      AskSpends(w, l.at, l.canceled, n, id);
      AddsNothing(w.trace, Asked(n, id, turn));
    } else {
      OthersAdd(w, l, Asked(n, id, turn));
    }
  }

  /** A prompt taken off its occurrence, or whose generation comes to no turn without an outcome, is asked for by no
  continuation. */
  lemma {:induction false} NeverAgain(w: World, more: seq<Label>, n: Node, id: Id)
    requires Inv(w) && IsRun(w, more) && Spent(w, n, id)
    ensures NoneSince(w.trace, After(w, more).trace, n, id)
    decreases more
  {
    hide Inv, Enabled, Apply, Spent, Adds, NotSince;
    if more == [] {
      NothingSince(w.trace, n, id);
    } else {
      var v := Apply(w, more[0]);
      StaysSpent(w, more[0], n, id);
      StepKeeps(w, more[0]);
      NeverAgain(v, more[1..], n, id);
      forall turn ensures NotSince(w.trace, After(v, more[1..]).trace, Asked(n, id, turn)) {
        SpentIsQuiet(w, more[0], n, id, turn);
        NotSinceThen(w.trace, v.trace, After(v, more[1..]).trace, Asked(n, id, turn));
      }
    }
  }

  lemma NothingSince(trace: seq<Event>, n: Node, id: Id)
    ensures NoneSince(trace, trace, n, id)
  {
  }

  // ---- otherwise it is asked for ----

  lemma AsksNow(w: World, n: Node, id: Id, l: Label, turn: nat)
    requires Enabled(w, l) && Apply(w, l).trace == w.trace + [Asked(n, id, turn)]
    ensures MayAsk(w, n, id)
  {
    hide Enabled, Apply;
    assert [l][1..] == [];
    assert IsRun(w, [l]) && After(w, [l]) == Apply(w, l);
    assert After(w, [l]).trace[|w.trace|] == Asked(n, id, turn);
    assert !NotSince(w.trace, After(w, [l]).trace, Asked(n, id, turn));
  }

  lemma AsksThen(w: World, n: Node, id: Id, l: Label)
    requires Inv(w) && Enabled(w, l) && MayAsk(Apply(w, l), n, id)
    ensures MayAsk(w, n, id)
  {
    hide Inv, Enabled, Apply, NotSince;
    var v := Apply(w, l);
    StepKeeps(w, l);
    StepLater(w, l);
    var more :| IsRun(v, more) && !NoneSince(v.trace, After(v, more).trace, n, id);
    var turn :| !NotSince(v.trace, After(v, more).trace, Asked(n, id, turn));
    RunLater(v, more);
    SinceBefore(w.trace, v.trace, After(v, more).trace, Asked(n, id, turn));
    assert ([l] + more)[1..] == more;
    assert IsRun(w, [l] + more) && After(w, [l] + more) == After(v, more);
  }

  lemma SinceBefore(a: seq<Event>, b: seq<Event>, c: seq<Event>, e: Event)
    requires a <= b <= c && !NotSince(b, c, e)
    ensures !NotSince(a, c, e)
  {
    var k :| 0 <= k < |c[|b|..]| && c[|b|..][k] == e;
    assert c[|a|..][|b| - |a| + k] == e;
  }

  lemma AskEmits(w: World, n: Node, id: Id)
    requires InTurn(w, n) && State(w, n).active == Some(id) && (n, id) in w.gens && w.gens[(n, id)].stage.Due?
    requires (n, id, w.gens[(n, id)].turn) !in w.settled
    ensures MayAsk(w, n, id)
  {
    hide MayAsk;
    AsksNow(w, n, id, Ask(n.address, false), w.gens[(n, id)].turn);
  }

  /** A recorded provider failure is passed, and the next turn asked. */
  lemma DueAsksSome(w: World, n: Node, id: Id)
    requires Inv(w) && AsksOn(w, n, id) && State(w, n).active == Some(id) && w.gens[(n, id)].stage.Due?
    ensures MayAsk(w, n, id)
  {
    hide Inv, MayAsk;
    var g := w.gens[(n, id)];
    if (n, id, g.turn) in w.settled {
      SettledReplays(w, n, id, g.turn);
      var v := Apply(w, Ask(n.address, false));
      assert v.gens[(n, id)] == Gen(g.turn + 1, g.invalid, 1, Due);
      AskEmits(v, n, id);
      AsksThen(w, n, id, Ask(n.address, false));
    } else {
      AskEmits(w, n, id);
    }
  }

  lemma SettledReplays(w: World, n: Node, id: Id, turn: nat)
    requires Inv(w) && (n, id, turn) in w.settled
    ensures Replays(w.settled[(n, id, turn)])
  {
    hide Ids, Lists, Actives, Loops, Sends, Finishes, Transcripts;
  }

  lemma RunningAsksSome(w: World, n: Node, id: Id)
    requires Inv(w) && AsksOn(w, n, id) && State(w, n).active == Some(id) && w.gens[(n, id)].stage.Running?
    ensures MayAsk(w, n, id)
  {
    hide Inv, MayAsk, DueAsks;
    var g := w.gens[(n, id)];
    var again := g.invalid + 1 < INVALID && DueAsks(w.settled, n, id, g.turn + 1, g.failures);
    var l := Return(n.address, Erred(again, !again, false, false), Kept(FAILURE), false);
    var v := Apply(w, l);
    LaterTurn(w.settled, n, id, g.turn, g.turn + 1, if again then g.failures else 1);
    StepKeeps(w, l);
    DueAsksSome(v, n, id);
    AsksThen(w, n, id, l);
  }

  lemma LaterTurn(settled: map<(Node, Id, nat), Answer>, n: Node, id: Id, k: nat, turn: nat, failures: nat)
    requires k < turn
    ensures DueAsks(settled[(n, id, k) := FAILURE], n, id, turn, failures) == DueAsks(settled, n, id, turn, failures)
  {
  }

  /** The process is gone, the occurrence is entered again, and the loop takes its prompt up. */
  lemma LaterProcessAsks(w: World, n: Node, id: Id)
    requires Inv(w) && State(w, n).active == Some(id) && AsksAgain(w, n, id)
    ensures MayAsk(w, n, id)
  {
    hide Inv, MayAsk, Asks, DoLook;
    ActiveFacts(w, n, id);
    var u := Apply(w, Crash);
    var v := Apply(u, Enter(n));
    var l := Look(n.address, true, true);
    TakenUp(v, n, id);
    StepKeeps(w, Crash);
    StepKeeps(u, Enter(n));
    StepKeeps(v, l);
    StartIsDue(Apply(v, l), n, id);
    AsksThen(v, n, id, l);
    AsksThen(u, n, id, Enter(n));
    AsksThen(w, n, id, Crash);
  }

  lemma StartIsDue(w: World, n: Node, id: Id)
    requires Inv(w) && AsksOn(w, n, id) && State(w, n).active == Some(id) && w.gens[(n, id)] == START
    ensures MayAsk(w, n, id)
  {
    hide Inv, MayAsk, AsksOn;
    DueAsksSome(w, n, id);
  }

  lemma TakenUp(w: World, n: Node, id: Id)
    requires n.address in w.loops && w.loops[n.address] == Loop(n, Idle)
    requires n in w.states && w.states[n].active == Some(id) && id in w.inputs && w.inputs[id].id == id
    requires Plain(w.inputs[id].content) && w.inputs[id].disposition !in {Uncertain, Inflight}
    ensures var w' := DoLook(w, n.address, true, true);
            && InTurn(w', n) && State(w', n).active == Some(id) && w'.settled == w.settled
            && (n, id) in w'.gens && w'.gens[(n, id)] == START
  {
    hide PendingAt;
  }

  // ---- exactly when ----

  lemma PromptAgainStep(w: World, n: Node, id: Id)
    requires Inv(w) && ConsumedBy(w.states, n, id)
    ensures MayAsk(w, n, id) <==> CanAsk(w, n, id)
  {
    hide Inv, AsksAgain, NoneSince;
    if CanAsk(w, n, id) {
      if AsksAgain(w, n, id) {
        LaterProcessAsks(w, n, id);
      } else if w.gens[(n, id)].stage.Due? {
        DueAsksSome(w, n, id);
      } else {
        RunningAsksSome(w, n, id);
      }
    } else {
      forall more | IsRun(w, more) ensures NoneSince(w.trace, After(w, more).trace, n, id) {
        NeverAgain(w, more, n, id);
      }
    }
  }

  /** For every prompt that was taken up, at any point of any run: some continuation asks the harness for it, once more
  if it was asked before, if and only if it is still its occurrence's own and its generation can come to a turn without
  an outcome: begun again by a later process, or as it is under way in this one. */
  lemma PromptAgainExactly(run: seq<Label>, n: Node, id: Id)
    requires IsRun(INIT, run) && Prompted(n, id) in After(INIT, run).trace
    ensures MayAsk(After(INIT, run), n, id) <==> CanAsk(After(INIT, run), n, id)
  {
    hide Inv, MayAsk, CanAsk;
    Reachable(run);
    WasConsumed(After(INIT, run), n, id);
    PromptAgainStep(After(INIT, run), n, id);
  }

  // ---- what a later process hears ----

  /** The turn whose record decides, where no turn is left to ask. */
  function Decisive(settled: map<(Node, Id, nat), Answer>, n: Node, id: Id): nat {
    if (n, id, 1) in settled && Retried(settled[(n, id, 1)]) then 2 else 1
  }

  function Heard(a: Answer): Outcome { match a case Said(decision) => Succeeded(decision) case Erred(_, _, c, u) => Failed(c, u) }

  /** A generation that comes to no turn without an outcome asks nothing and ends as the decisive turn's record says,
  which is the first turn's unless that is a provider failure. So a recorded answer to any other turn is not heard: an
  invalid answer is recorded as an error, and what the same process was then told to the second question is lost with it. */
  lemma LaterOutcome(w: World, at: Address, n: Node, id: Id)
    requires Inv(w) && Generating(w, at) && Key(w, at) == (n, id) && w.gens[(n, id)] == START && !AsksAgain(w, n, id)
    ensures (n, id, Decisive(w.settled, n, id)) in w.settled
    ensures var asks := if Decisive(w.settled, n, id) == 1 then [Ask(at, false)] else [Ask(at, false), Ask(at, false)];
            && IsRun(w, asks) && After(w, asks).trace == w.trace && (n, id) in After(w, asks).gens
            && After(w, asks).gens[(n, id)].stage == Over(Heard(w.settled[(n, id, Decisive(w.settled, n, id))]))
  {
    hide Inv;
    var l := Ask(at, false);
    SettledReplays(w, n, id, 1);
    var v := Apply(w, l);
    if Decisive(w.settled, n, id) == 1 {
      OneStep(w, l);
    } else {
      assert v.gens[(n, id)] == Gen(2, 0, 1, Due);
      SettledReplays(w, n, id, 2);
      assert Apply(v, l).gens[(n, id)].stage == Over(Heard(w.settled[(n, id, 2)]));
      TwoSteps(w, l, l);
    }
  }

  lemma OneStep(w: World, l: Label)
    requires Enabled(w, l)
    ensures IsRun(w, [l]) && After(w, [l]) == Apply(w, l)
  {
    hide Enabled, Apply;
    assert [l][1..] == [];
  }

  lemma TwoSteps(w: World, l: Label, m: Label)
    requires Enabled(w, l) && Enabled(Apply(w, l), m)
    ensures IsRun(w, [l, m]) && After(w, [l, m]) == Apply(Apply(w, l), m)
  {
    hide Enabled, Apply;
    assert [l, m][1..] == [m];
    OneStep(Apply(w, l), m);
  }

  // ---- what a completion takes off ----

  /** A steer in the queue whose effect nobody knows. */
  predicate Unanswered(q: seq<Input>) { exists i | 0 <= i < |q| :: InDoubt(q[i]) }

  predicate InDoubt(e: Input) { !e.content.finish && !e.content.stop && e.disposition in {Uncertain, Inflight} }

  lemma {:induction false} SettleResolves(s: Occurrence, q: seq<Input>)
    ensures Settle(s, q).unresolved <==> s.unresolved || Unanswered(q)
    decreases q
  {
    if q != [] {
      SettleResolves(SettleOne(s, q[0]), q[1..]);
      assert Unanswered(q) <==> Unanswered([q[0]]) || Unanswered(q[1..]) by {
        assert q == [q[0]] + q[1..];
        assert [q[0]][0] == q[0];
        if Unanswered(q[1..]) {
          var i :| 0 <= i < |q[1..]| && InDoubt(q[1..][i]);
          assert q[i + 1] == q[1..][i];
        }
      }
    }
  }

  lemma {:induction false} QueueIgnores(w: World, input: Input, d: Disposition, at: Address, ids: seq<Id>)
    requires input.id in w.inputs && w.inputs[input.id] == input && Consumed(w.states, input.id)
    ensures Queue(Put(w, input, d), at, ids) == Queue(w, at, ids)
    decreases ids
  {
    if ids != [] {
      QueueIgnores(w, input, d, at, ids[1..]);
      assert IsPending(Put(w, input, d), at, ids[0]) <==> IsPending(w, at, ids[0]);
    }
  }

  ghost predicate Completes(w: World, at: Address, n: Node, id: Id) {
    && at in w.loops && w.loops[at] == Loop(n, Turn([])) && n.address == at
    && n in w.states && w.states[n].active == Some(id) && id in w.inputs && w.inputs[id].id == id
  }

  /** A human's stop is queued, no finish, and the prompt is known to have arrived. */
  predicate StopIsEnough(s: Occurrence, q: seq<Input>, delivered: bool) {
    HasStop(q) && FirstFinish(q).None? && (s.published || delivered)
  }

  /** The turn's answer takes the prompt off its occurrence, given the queue as it is then: nothing that was delivered
  is in doubt, and the answer is a decision, or what it is after a stop or finish that ended the turn. */
  predicate TakesOff(s: Occurrence, q: seq<Input>, outcome: Outcome, delivered: bool) {
    && !s.unresolved && !Unanswered(q)
    && match outcome
       case Succeeded(decision) => decision != Invalid
       case Failed(canceled, true) => StopIsEnough(s, q, delivered)
       case Failed(canceled, false) => canceled && (FirstFinish(q).Some? || HasStop(q))
  }

  lemma ClosedTakesOff(s: Occurrence, s1: Occurrence, q: seq<Input>, outcome: Outcome, delivered: bool)
    requires s.active.Some? && s1.active == s.active && s1.unresolved == s.unresolved
    requires s1.published == (s.published || outcome.Succeeded? || delivered)
    ensures var (r, commits) := Closed(s1, q, outcome);
            && (TakesOff(s, q, outcome, delivered) ==> commits && r.active.None?)
            && (!TakesOff(s, q, outcome, delivered) && commits ==> r.active == s.active)
  {
    hide Settle, HasStop, FirstFinish, Unanswered;
    SettleResolves(s1, q);
    SettleKeepsActive(s1, q);
  }

  /** The prompt stays unless the answer takes it off and both writes are accepted; where it stays the consumer ends. */
  lemma CompletedActive(w: World, at: Address, n: Node, id: Id, outcome: Outcome, delivered: bool,
                        recorded: bool, committed: bool)
    requires Inv(w) && Completes(w, at, n, id)
    ensures var w' := DoComplete(w, at, outcome, delivered, recorded, committed);
            && w'.settled == w.settled && ConsumedBy(w'.states, n, id) && !InTurn(w', n)
            && (State(w', n).active == Some(id) <==>
                !(recorded && committed && TakesOff(w.states[n], PendingAt(w, at), outcome, delivered)))
  {
    hide Inv, Queue, Closed, TakesOff, Published, PromptFate, Conclude, ActiveOk;
    ActiveFacts(w, n, id);
    ActiveIsConsumed(w, n, id);
    var s, q, input := w.states[n], PendingAt(w, at), w.inputs[id];
    var w1 := Put(w, input, PromptFate(s, input, outcome, delivered));
    QueueIgnores(w, input, PromptFate(s, input, outcome, delivered), at, w.order);
    var s1 := Published(s, input, Publishes(s, outcome, delivered));
    PublishedFacts(s, input, outcome, delivered);
    ClosedTakesOff(s, s1, q, outcome, delivered);
    ConcludeActive(w1, n, Closed(s1, q, outcome), committed);
    CompleteKeepsConsumed(w, at, n, id, outcome, delivered, recorded, committed);
  }

  lemma ActiveIsConsumed(w: World, n: Node, id: Id)
    requires ActiveOk(w, n, id)
    ensures Consumed(w.states, id)
  {
    assert ConsumedBy(w.states, n, id);
  }

  lemma PublishedFacts(s: Occurrence, input: Input, outcome: Outcome, delivered: bool)
    ensures var s1 := Published(s, input, Publishes(s, outcome, delivered));
            && s1.active == s.active && s1.unresolved == s.unresolved
            && s1.published == (s.published || outcome.Succeeded? || delivered)
  {
  }

  lemma ConcludeActive(w: World, n: Node, closed: (Occurrence, bool), committed: bool)
    ensures var w' := Conclude(w, n.address, n, closed, committed);
            && w'.settled == w.settled && !InTurn(w', n)
            && State(w', n).active == (if closed.1 && committed then closed.0.active else State(w, n).active)
  {
  }

  lemma CompleteKeepsConsumed(w: World, at: Address, n: Node, id: Id, outcome: Outcome, delivered: bool,
                              recorded: bool, committed: bool)
    requires Inv(w) && Completes(w, at, n, id)
    ensures ConsumedBy(DoComplete(w, at, outcome, delivered, recorded, committed).states, n, id)
  {
    hide Closed, PendingAt;
    assert ActiveOk(w, n, id);
    OpenAt(w, at);
    CompleteLater(w, at, outcome, delivered, recorded, committed);
  }

  /** However a generation ends, its prompt can be asked for again afterwards if and only if the turns recorded of it
  leave one to ask and the answer did not take it off: a write was refused, or the answer and the queue left it. */
  lemma PromptAfterTurn(run: seq<Label>, at: Address, n: Node, id: Id, outcome: Outcome, delivered: bool,
                        recorded: bool, committed: bool)
    requires IsRun(INIT, run) && Completes(After(INIT, run), at, n, id)
    requires Enabled(After(INIT, run), Complete(at, outcome, delivered, recorded, committed))
    ensures var w := After(INIT, run);
            MayAsk(DoComplete(w, at, outcome, delivered, recorded, committed), n, id) <==>
              && AsksAgain(w, n, id)
              && !(recorded && committed && TakesOff(w.states[n], PendingAt(w, at), outcome, delivered))
  {
    hide Inv, DoComplete, MayAsk, TakesOff, Asks;
    Reachable(run);
    var w := After(INIT, run);
    CompletedActive(w, at, n, id, outcome, delivered, recorded, committed);
    StepKeeps(w, Complete(at, outcome, delivered, recorded, committed));
    PromptAgainStep(DoComplete(w, at, outcome, delivered, recorded, committed), n, id);
  }

  /** When nobody knows how a turn ended, its prompt can be asked for again, provided that the turns before it lead there
  again, unless a human's stop, and no finish, was queued for a prompt known to have arrived, no other delivery was in
  doubt, and all that reached the journal. */
  lemma UncertainPromptAgain(run: seq<Label>, at: Address, n: Node, id: Id, canceled: bool, delivered: bool,
                             recorded: bool, committed: bool)
    requires IsRun(INIT, run) && Completes(After(INIT, run), at, n, id)
    requires Enabled(After(INIT, run), Complete(at, Failed(canceled, true), delivered, recorded, committed))
    ensures var w := After(INIT, run);
            var s, q := w.states[n], PendingAt(w, at);
            MayAsk(DoComplete(w, at, Failed(canceled, true), delivered, recorded, committed), n, id) <==>
              && AsksAgain(w, n, id)
              && !(recorded && committed && StopIsEnough(s, q, delivered) && !s.unresolved && !Unanswered(q))
  {
    hide Inv, DoComplete, MayAsk, Unanswered, StopIsEnough, Asks, Enabled;
    PromptAfterTurn(run, at, n, id, Failed(canceled, true), delivered, recorded, committed);
  }

  // ---- the shortest runs in which a prompt is asked for twice ----

  /** In this run turn `a` of a prompt is asked, and later turn `b`. */
  ghost predicate AskedTwice(run: seq<Label>, n: Node, id: Id, a: nat, b: nat) {
    && IsRun(INIT, run)
    && exists i, j :: 0 <= i < j < |After(INIT, run).trace|
         && After(INIT, run).trace[i] == Asked(n, id, a) && After(INIT, run).trace[j] == Asked(n, id, b)
  }

  lemma RunningFacts() returns (run: seq<Label>)
    ensures IsRun(INIT, run) && After(INIT, run) == RUNNING
    ensures Completes(RUNNING, HERE, FIRST, "p") && Asked(FIRST, "p", 1) in RUNNING.trace
  {
    TraceMember(BEGUN.trace, Asked(FIRST, "p", 1));
    run := RunningRun();
  }

  const LOST := Return(HERE, Erred(false, false, false, true), Unkept, false)
  const ENDED := Complete(HERE, Failed(false, true), false, true, true)
  const GONE := Advance(RUNNING, (FIRST, "p"), START.(stage := Over(Failed(false, true))))

  lemma NoStopQueued()
    ensures !HasStop(PendingAt(GONE, HERE)) && Completes(GONE, HERE, FIRST, "p")
  {
    OnlyFirst(GONE.states, "p");
    assert GONE.order == ["p"] && ["p"][1..] == [] && !IsPending(GONE, HERE, "p");
    assert Queue(GONE, HERE, ["p"]) == [];
  }

  lemma LostEnds()
    ensures Enabled(RUNNING, LOST) && Apply(RUNNING, LOST) == GONE && Enabled(GONE, ENDED) && AsksAgain(GONE, FIRST, "p")
  {
    hide DoComplete, DoLook;
  }

  /** The first turn of the first prompt ends without a word on what became of it, and a later process asks for the
  same prompt again. */
  lemma UncertainPromptIsResent()
    ensures exists run, turn :: AskedTwice(run, FIRST, "p", 1, turn)
  {
    hide IsRun, After, Enabled, Apply, MayAsk, HasStop, PendingAt, DoComplete, AskedTwice, Asks, Inv;
    var run := RunningFacts();
    LostEnds();
    Append(INIT, run, LOST);
    NoStopQueued();
    UncertainPromptAgain(run + [LOST], HERE, FIRST, "p", false, false, true, true);
    EndedApplies();
    Append(INIT, run + [LOST], ENDED);
    TraceMember(BEGUN.trace, Asked(FIRST, "p", 1));
    AskedAfter(run + [LOST] + [ENDED], RUNNING.trace, FIRST, "p", 1);
  }

  lemma EndedApplies()
    requires Enabled(GONE, ENDED)
    ensures Apply(GONE, ENDED) == DoComplete(GONE, HERE, Failed(false, true), false, true, true)
    ensures DoComplete(GONE, HERE, Failed(false, true), false, true, true).trace == RUNNING.trace
  {
    hide PendingAt, Closed;
  }

  lemma AskedAfter(run: seq<Label>, before: seq<Event>, n: Node, id: Id, turn: nat)
    requires IsRun(INIT, run) && before <= After(INIT, run).trace && Asked(n, id, turn) in before
    requires MayAsk(After(INIT, run), n, id)
    ensures exists more, next :: AskedTwice(more, n, id, turn, next)
  {
    hide Inv, Enabled, Apply;
    var w := After(INIT, run);
    var more :| IsRun(w, more) && !NoneSince(w.trace, After(w, more).trace, n, id);
    var next :| !NotSince(w.trace, After(w, more).trace, Asked(n, id, next));
    Reachable(run);
    RunLater(w, more);
    Joined(INIT, run, more);
    var trace := After(w, more).trace;
    TwiceIn(before, w.trace, trace, Asked(n, id, turn), Asked(n, id, next));
    var i, j :| 0 <= i < j < |trace| && trace[i] == Asked(n, id, turn) && trace[j] == Asked(n, id, next);
    assert After(INIT, run + more).trace == trace;
    assert AskedTwice(run + more, n, id, turn, next);
  }

  lemma TwiceIn(a: seq<Event>, b: seq<Event>, c: seq<Event>, d: Event, e: Event)
    requires a <= b <= c && d in a && !NotSince(b, c, e)
    ensures exists i, j :: 0 <= i < j < |c| && c[i] == d && c[j] == e
  {
    var i :| 0 <= i < |a| && a[i] == d;
    var k :| 0 <= k < |c[|b|..]| && c[|b|..][k] == e;
    assert c[i] == d && c[|b| + k] == e;
  }

  lemma {:induction false} Joined(w: World, run: seq<Label>, more: seq<Label>)
    requires IsRun(w, run) && IsRun(After(w, run), more)
    ensures IsRun(w, run + more) && After(w, run + more) == After(After(w, run), more)
    decreases run
  {
    hide Enabled, Apply;
    if run == [] {
      assert run + more == more;
    } else {
      assert (run + more)[1..] == run[1..] + more;
      Joined(Apply(w, run[0]), run[1..], more);
    }
  }

  const PROVIDER := Erred(false, true, false, false)
  const BROKEN := Return(HERE, PROVIDER, Kept(PROVIDER), false)

  /** The first turn fails with the provider's session error. Its outcome is recorded, and the same process asks the same
  prompt a second time. */
  lemma ProviderErrorAsksTwice()
    ensures exists run :: AskedTwice(run, FIRST, "p", 1, 2) && Crash !in run && (FIRST, "p", 1) in After(INIT, run).settled
  {
    hide Enabled, Apply, IsRun, After;
    var run := RunningRun();
    BrokenAsks();
    Append(INIT, run, BROKEN);
    Append(INIT, run + [BROKEN], Ask(HERE, false));
    var trace := After(INIT, run + [BROKEN] + [Ask(HERE, false)]).trace;
    assert trace[1] == Asked(FIRST, "p", 1) && trace[2] == Asked(FIRST, "p", 2);
    assert AskedTwice(run + [BROKEN] + [Ask(HERE, false)], FIRST, "p", 1, 2);
  }

  const REFUSED := Advance(RUNNING, (FIRST, "p"), Gen(2, 0, 1, Due)).(settled := map[(FIRST, "p", 1) := PROVIDER])

  lemma BrokenAsks()
    ensures Enabled(RUNNING, BROKEN) && Apply(RUNNING, BROKEN) == REFUSED && Enabled(REFUSED, Ask(HERE, false))
    ensures var w := Apply(REFUSED, Ask(HERE, false));
            && (FIRST, "p", 1) in w.settled
            && w.trace == [Prompted(FIRST, "p"), Asked(FIRST, "p", 1), Asked(FIRST, "p", 2)]
  {
    hide DoLook, DoComplete, PendingAt;
  }

  /** No crash is needed to get there. */
  lemma RunningRun() returns (run: seq<Label>)
    ensures IsRun(INIT, run) && After(INIT, run) == RUNNING && Crash !in run
  {
    hide Enabled, Apply, IsRun, After;
    FirstSteps();
    run := [Enter(FIRST)];
    NoRun(INIT);
    Append(INIT, [], Enter(FIRST));
    assert [] + [Enter(FIRST)] == run;
    Append(INIT, run, Accept("p", TEXT, false, true));
    run := run + [Accept("p", TEXT, false, true)];
    Append(INIT, run, Look(HERE, true, true));
    run := run + [Look(HERE, true, true)];
    Append(INIT, run, Ask(HERE, false));
    run := run + [Ask(HERE, false)];
  }

  lemma NoRun(w: World)
    ensures IsRun(w, []) && After(w, []) == w
  {
  }

  lemma FirstSteps()
    ensures Enabled(INIT, Enter(FIRST)) && Apply(INIT, Enter(FIRST)) == ENTERED
    ensures Enabled(ENTERED, Accept("p", TEXT, false, true)) && Apply(ENTERED, Accept("p", TEXT, false, true)) == ACCEPTED
    ensures Enabled(ACCEPTED, Look(HERE, true, true)) && Apply(ACCEPTED, Look(HERE, true, true)) == BEGUN
    ensures Enabled(BEGUN, Ask(HERE, false)) && Apply(BEGUN, Ask(HERE, false)) == RUNNING
  {
    assert Judge(ENTERED, "p", TEXT, false, true).Accepted?;
    QueueOfOne(ACCEPTED);
    LookTakes(ACCEPTED, HERE, P);
  }

  // ---- a good answer that is recorded and not heard ----

  const WRONG := Return(HERE, Erred(true, false, false, false), Kept(FAILURE), false)
  const GOOD := Return(HERE, Said(Chat("x")), Kept(Said(Chat("x"))), false)
  const INVALIDATED := Advance(RUNNING, (FIRST, "p"), Gen(2, 1, 0, Due)).(settled := map[(FIRST, "p", 1) := FAILURE])
  const ASKING := Emit(Advance(INVALIDATED, (FIRST, "p"), Gen(2, 1, 0, Running)), Asked(FIRST, "p", 2))
  const ANSWERED := Advance(ASKING, (FIRST, "p"), Gen(2, 1, 0, Over(Succeeded(Chat("x")))))
                      .(settled := map[(FIRST, "p", 1) := FAILURE, (FIRST, "p", 2) := Said(Chat("x"))])

  lemma WrongThenGood()
    ensures Enabled(RUNNING, WRONG) && Apply(RUNNING, WRONG) == INVALIDATED
    ensures Enabled(INVALIDATED, Ask(HERE, false)) && Apply(INVALIDATED, Ask(HERE, false)) == ASKING
    ensures Enabled(ASKING, GOOD) && Apply(ASKING, GOOD) == ANSWERED
  {
    hide DoLook, DoComplete, PendingAt;
  }

  lemma ReachAnswered() returns (run: seq<Label>)
    ensures IsRun(INIT, run) && After(INIT, run) == ANSWERED
  {
    hide Enabled, Apply, IsRun, After;
    run := RunningRun();
    WrongThenGood();
    Append(INIT, run, WRONG);
    Append(INIT, run + [WRONG], Ask(HERE, false));
    Append(INIT, run + [WRONG] + [Ask(HERE, false)], GOOD);
    run := run + [WRONG] + [Ask(HERE, false)] + [GOOD];
  }

  /** The prompt as a later process takes it up. */
  lemma TakenUpLater(run: seq<Label>, n: Node, id: Id) returns (more: seq<Label>)
    requires IsRun(INIT, run) && State(After(INIT, run), n).active == Some(id)
    ensures IsRun(INIT, more)
    ensures var w, w' := After(INIT, run), After(INIT, more);
            && InTurn(w', n) && State(w', n).active == Some(id) && w'.settled == w.settled
            && (n, id) in w'.gens && w'.gens[(n, id)] == START
  {
    hide Inv, IsRun, After, DoLook;
    Reachable(run);
    var w := After(INIT, run);
    ActiveFacts(w, n, id);
    Append(INIT, run, Crash);
    Append(INIT, run + [Crash], Enter(n));
    TakenUp(After(INIT, run + [Crash] + [Enter(n)]), n, id);
    Append(INIT, run + [Crash] + [Enter(n)], Look(n.address, true, true));
    more := run + [Crash] + [Enter(n)] + [Look(n.address, true, true)];
  }

  ghost predicate GoodUnheard(run: seq<Label>) {
    && IsRun(INIT, run)
    && var w := After(INIT, run);
       && (FIRST, "p", 2) in w.settled && w.settled[(FIRST, "p", 2)] == Said(Chat("x"))
       && InTurn(w, FIRST) && State(w, FIRST).active == Some("p")
       && (FIRST, "p") in w.gens && w.gens[(FIRST, "p")].stage == Over(Failed(false, false))
  }

  /** The first answer was invalid and the second one good. Both are recorded, the process ends before it could commit
  the answer, and a later process hears a failure. */
  lemma GoodAnswerIsLost()
    ensures exists run :: GoodUnheard(run)
  {
    hide IsRun, After, GoodUnheard;
    var run := ReachAnswered();
    assert State(ANSWERED, FIRST).active == Some("p");
    var more := TakenUpLater(run, FIRST, "p");
    LaterHears(more);
  }

  lemma LaterHears(more: seq<Label>)
    requires IsRun(INIT, more)
    requires var w := After(INIT, more);
             && InTurn(w, FIRST) && State(w, FIRST).active == Some("p") && w.settled == ANSWERED.settled
             && (FIRST, "p") in w.gens && w.gens[(FIRST, "p")] == START
    ensures GoodUnheard(more + [Ask(HERE, false)])
  {
    hide Inv, IsRun, After, Asks, Enabled, Apply;
    var w := After(INIT, more);
    assert w.settled[(FIRST, "p", 1)] == FAILURE && w.settled[(FIRST, "p", 2)] == Said(Chat("x"));
    Reachable(more);
    FailureDecides(w);
    LaterOutcome(w, HERE, FIRST, "p");
    OneStepAsks(w);
    Append(INIT, more, Ask(HERE, false));
    AskChangesNoState(w, HERE, false);
  }

  lemma OneStepAsks(w: World)
    requires Generating(w, HERE) && w.gens[Key(w, HERE)].stage.Due?
    ensures Enabled(w, Ask(HERE, false)) && Apply(w, Ask(HERE, false)) == DoAsk(w, HERE, false)
    ensures IsRun(w, [Ask(HERE, false)]) && After(w, [Ask(HERE, false)]) == DoAsk(w, HERE, false)
  {
    OneStep(w, Ask(HERE, false));
  }

  lemma FailureDecides(w: World)
    requires (FIRST, "p", 1) in w.settled && w.settled[(FIRST, "p", 1)] == FAILURE
    ensures !AsksAgain(w, FIRST, "p") && Decisive(w.settled, FIRST, "p") == 1
  {
  }

  lemma AskChangesNoState(w: World, at: Address, canceled: bool)
    requires Generating(w, at)
    ensures var w' := DoAsk(w, at, canceled); w'.states == w.states && w'.loops == w.loops && w'.settled == w.settled
  {
  }
}
