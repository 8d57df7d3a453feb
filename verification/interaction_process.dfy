/** What one process sends. It takes a prompt up once, asks each turn of the prompt's generation once, and needs only
the outcomes that it read when it opened the run (session.go:257-316, 405-419). */
module InteractionProcess {
  import opened Wrappers
  import opened Interaction
  import opened InteractionProofs
  import opened InteractionTheorems

  /** At most one event, and not this one. */
  ghost predicate Adds(trace: seq<Event>, trace': seq<Event>, e: Event) {
    trace' == trace || exists x :: x != e && trace' == trace + [x]
  }

  ghost predicate NotSince(trace: seq<Event>, trace': seq<Event>, e: Event) {
    trace <= trace' && e !in trace'[|trace|..]
  }

  lemma AddsNothing(trace: seq<Event>, e: Event)
    ensures Adds(trace, trace, e)
  {
  }

  lemma AddsAnother(trace: seq<Event>, e: Event)
    ensures !Adds(trace, trace + [e], e)
  {
    assert (trace + [e])[|trace|] == e;
  }

  lemma NotSinceThen(a: seq<Event>, b: seq<Event>, c: seq<Event>, e: Event)
    requires Adds(a, b, e) && NotSince(b, c, e)
    ensures NotSince(a, c, e)
  {
    if b != a {
      var x :| x != e && b == a + [x];
      assert c[|a|..] == [x] + c[|b|..];
    }
  }

  // ---- what a step adds to the trace ----

  lemma TakeAdds(w: World, n: Node, input: Input, configured: bool, committed: bool, e: Event)
    requires e != Prompted(n, input.id)
    ensures Adds(w.trace, DoTake(w, n, input, configured, committed).trace, e)
  {
    if DoTake(w, n, input, configured, committed).trace != w.trace {
      assert DoTake(w, n, input, configured, committed).trace == w.trace + [Prompted(n, input.id)];
    }
  }

  lemma LookAdds(w: World, at: Address, configured: bool, committed: bool, e: Event)
    requires Inv(w) && at in w.loops
    requires e.Prompted? && w.loops[at].node == e.node ==> ConsumedBy(w.states, e.node, e.id) && w.states[e.node].active != Some(e.id)
    ensures Adds(w.trace, DoLook(w, at, configured, committed).trace, e)
  {
    hide DoTake, PendingAt, Inv, Adds;
    var m, q := w.loops[at].node, PendingAt(w, at);
    var s := State(w, m);
    if e.Prompted? && m == e.node { QueueIsFresh(w, at, m, e.id); }
    if s.active.None? && FirstFinish(q).Some? {
      AddsNothing(w.trace, e);
    } else if s.active.Some? && s.active.value in w.inputs {
      ActiveHasId(w, m);
      TakeAdds(w, m, w.inputs[s.active.value], configured, committed, e);
    } else if q != [] {
      TakeAdds(w, m, q[0], configured, committed, e);
    } else {
      AddsNothing(w.trace, e);
    }
  }

  lemma ActiveHasId(w: World, m: Node)
    requires Inv(w) && State(w, m).active.Some? && State(w, m).active.value in w.inputs
    ensures w.inputs[State(w, m).active.value].id == State(w, m).active.value
  {
  }

  lemma QueueIsFresh(w: World, at: Address, n: Node, id: Id)
    requires Inv(w) && ConsumedBy(w.states, n, id)
    ensures forall i | 0 <= i < |PendingAt(w, at)| :: PendingAt(w, at)[i].id != id
  {
    SnapshotOk(w, Node(at, 0));
    assert Consumed(w.states, id);
  }

  lemma OthersAdd(w: World, l: Label, e: Event)
    requires Enabled(w, l) && !l.Look? && (e.Prompted? || e.Asked?)
    requires l.Ask? && e.Asked? ==> e != Asked(Key(w, l.at).0, Key(w, l.at).1, w.gens[Key(w, l.at)].turn)
    ensures Adds(w.trace, Apply(w, l).trace, e)
  {
    hide PendingAt, Closed, Follow, CanReturn;
    if l.Steer? {
      SteerAdds(w, l.at, l.recorded, e);
    } else if l.Answer? {
      AnswerAdds(w, l.at, l.landed, l.failed, l.recorded, e);
    } else if l.Ask? {
      var x := Asked(Key(w, l.at).0, Key(w, l.at).1, w.gens[Key(w, l.at)].turn);
      assert Apply(w, l).trace in {w.trace, w.trace + [x]};
    } else {
      assert Apply(w, l).trace == w.trace;
    }
  }

  lemma SteerAdds(w: World, at: Address, recorded: bool, e: Event)
    requires at in w.loops && w.loops[at].phase.Turn? && w.loops[at].phase.rest != [] && (e.Prompted? || e.Asked?)
    ensures Adds(w.trace, DoSteer(w, at, recorded).trace, e)
  {
    var x := SteerSent(w.loops[at].node, w.loops[at].phase.rest[0].id);
    assert DoSteer(w, at, recorded).trace in {w.trace, w.trace + [x]};
  }

  lemma AnswerAdds(w: World, at: Address, landed: bool, failed: bool, recorded: bool, e: Event)
    requires at in w.loops && w.loops[at].phase.Sending? && (e.Prompted? || e.Asked?)
    ensures Adds(w.trace, DoAnswer(w, at, landed, failed, recorded).trace, e)
  {
    var n, id := w.loops[at].node, w.loops[at].phase.input.id;
    assert DoAnswer(w, at, landed, failed, recorded).trace in
      {w.trace, w.trace + [Doubtful(n, id)], w.trace + [Landed(n, id)], w.trace + [Dropped(n, id)]};
  }

  // ---- what a step does to the turns ----

  lemma TakeBegins(w: World, m: Node, input: Input, configured: bool, committed: bool)
    ensures var w' := DoTake(w, m, input, configured, committed);
            w'.settled == w.settled && w'.entered == w.entered && w'.gens in {w.gens, w.gens[(m, input.id) := START]}
  {
    hide Begun;
  }

  /** The generations that a look may begin: of the consumer's own prompt, or of an input nobody consumed. */
  lemma LookBegins(w: World, at: Address, configured: bool, committed: bool, n: Node, id: Id)
    requires Inv(w) && at in w.loops && ConsumedBy(w.states, n, id)
    ensures var w' := DoLook(w, at, configured, committed);
            && w'.settled == w.settled && w'.entered == w.entered
            && (!(w.loops[at].node == n && w.states[n].active == Some(id)) ==>
                  ((n, id) in w'.gens <==> (n, id) in w.gens) && ((n, id) in w.gens ==> w'.gens[(n, id)] == w.gens[(n, id)]))
            && ((n, id) in w'.gens ==> (n, id) in w.gens || w'.gens[(n, id)] == START)
            && ((n, id) in w.gens ==> (n, id) in w'.gens && w'.gens[(n, id)] in {w.gens[(n, id)], START})
  {
    hide DoTake, PendingAt, Inv, FirstFinish;
    var m, q := w.loops[at].node, PendingAt(w, at);
    QueueIsFresh(w, at, n, id);
    if State(w, m).active.Some? && State(w, m).active.value in w.inputs {
      ActiveHasId(w, m);
      TakeBegins(w, m, w.inputs[State(w, m).active.value], configured, committed);
    }
    if q != [] { TakeBegins(w, m, q[0], configured, committed); }
  }

  lemma LookRecordsNothing(w: World, at: Address, configured: bool, committed: bool)
    requires at in w.loops
    ensures var w' := DoLook(w, at, configured, committed); w'.settled == w.settled && w'.entered == w.entered
  {
    hide DoTake, PendingAt, FirstFinish;
    var m, q := w.loops[at].node, PendingAt(w, at);
    if State(w, m).active.Some? && State(w, m).active.value in w.inputs {
      TakeBegins(w, m, w.inputs[State(w, m).active.value], configured, committed);
    }
    if q != [] { TakeBegins(w, m, q[0], configured, committed); }
  }

  lemma CompleteRecordsNothing(w: World, at: Address, outcome: Outcome, delivered: bool, recorded: bool, committed: bool)
    requires at in w.loops
    ensures var w' := DoComplete(w, at, outcome, delivered, recorded, committed);
            w'.settled == w.settled && w'.entered == w.entered && w'.gens == w.gens
  {
    hide PendingAt, Closed, Published, PromptFate, Publishes;
  }

  lemma OthersRecordNothing(w: World, l: Label)
    requires Enabled(w, l) && !l.Look? && !l.Ask? && !l.Return? && !l.Crash?
    ensures var w' := Apply(w, l); w'.settled == w.settled && w'.gens == w.gens && w.entered <= w'.entered
  {
    hide PendingAt, DoComplete;
    if l.Complete? { CompleteRecordsNothing(w, l.at, l.outcome, l.delivered, l.recorded, l.committed); }
  }

  // ---- what an occurrence consumed stays consumed ----

  /** And does not become its prompt again. */
  lemma StaysOff(w: World, l: Label, n: Node, id: Id)
    requires Inv(w) && Enabled(w, l) && ConsumedBy(w.states, n, id)
    ensures ConsumedBy(Apply(w, l).states, n, id)
    ensures w.states[n].active != Some(id) ==> Apply(w, l).states[n].active != Some(id)
  {
    hide Enabled, Apply, Inv;
    StepLater(w, l);
    QueueIsFresh(w, n.address, n, id);
    if w.states[n].active != Some(id) && State(Apply(w, l), n).active == Some(id) { ActivationIsLook(w, l, n, id); }
  }

  lemma WasConsumed(w: World, n: Node, id: Id)
    requires Inv(w) && Prompted(n, id) in w.trace
    ensures ConsumedBy(w.states, n, id)
  {
  }

  lemma ActiveFacts(w: World, n: Node, id: Id)
    requires Inv(w) && State(w, n).active == Some(id)
    ensures ActiveOk(w, n, id) && w.inputs[id].id == id
  {
    assert n in w.states;
  }

  // ---- a prompt is taken up once ----

  ghost predicate AtRest(w: World, n: Node) { n.address in w.loops && w.loops[n.address] == Loop(n, Idle) }

  /** This process entered the occurrence, and its consumer will not take the prompt up from the top of its loop. */
  ghost predicate SentHere(w: World, n: Node, id: Id) {
    n in w.entered && ConsumedBy(w.states, n, id) && !(AtRest(w, n) && w.states[n].active == Some(id))
  }

  /** The consumer comes back to rest only without its prompt. */
  lemma RestStep(w: World, l: Label, n: Node, id: Id)
    requires Inv(w) && Enabled(w, l) && !l.Crash? && SentHere(w, n, id) && w.states[n].active == Some(id)
    ensures !(AtRest(Apply(w, l), n) && State(Apply(w, l), n).active == Some(id))
  {
    hide Inv, DoLook, DoComplete;
    if l.Look? {
      LoopIsIts(w, l.at);
      LookRests(w, l.at, l.configured, l.committed, n);
    } else if l.Complete? {
      LoopIsIts(w, l.at);
      CompleteRests(w, l.at, l.outcome, l.delivered, l.recorded, l.committed, n, id);
    } else {
      OthersRest(w, l, n);
    }
  }

  lemma OthersRest(w: World, l: Label, n: Node)
    requires Enabled(w, l) && !l.Crash? && !l.Look? && !l.Complete? && n in w.entered && !AtRest(w, n)
    ensures !AtRest(Apply(w, l), n)
  {
    hide PendingAt, CanReturn, DoAccept, DoClose, DoAsk, DoReturn;
    match l {
      case Accept(id, c, terminal, turnMatches) => AcceptLoops(w, id, c, terminal, turnMatches);
      case CloseInputs(scope, count) => CloseLoops(w, scope, count);
      case Ask(at, canceled) => AskLoops(w, at, canceled);
      case Return(at, a, note, canceled) => ReturnLoops(w, at, a, note, canceled);
      case _ =>
    }
  }

  lemma AcceptLoops(w: World, id: Id, c: Content, terminal: bool, turnMatches: bool)
    ensures DoAccept(w, id, c, terminal, turnMatches).loops == w.loops
  {
  }

  lemma CloseLoops(w: World, scope: string, count: nat)
    ensures DoClose(w, scope, count).loops == w.loops
  {
  }

  lemma AskLoops(w: World, at: Address, canceled: bool)
    requires Generating(w, at)
    ensures DoAsk(w, at, canceled).loops == w.loops
  {
  }

  lemma ReturnLoops(w: World, at: Address, a: Answer, note: Note, canceled: bool)
    requires CanReturn(w, at, a, note)
    ensures DoReturn(w, at, a, note, canceled).loops == w.loops
  {
  }

  lemma LookRests(w: World, at: Address, configured: bool, committed: bool, n: Node)
    requires at in w.loops && w.loops[at].node.address == at && !AtRest(w, n) && w.loops[at].phase.Idle?
    ensures !AtRest(DoLook(w, at, configured, committed), n)
  {
    hide PendingAt, DoTake, FirstFinish;
    var m, q := w.loops[at].node, PendingAt(w, at);
    if q != [] { TakeRests(w, m, q[0], configured, committed, n); }
    if State(w, m).active.Some? && State(w, m).active.value in w.inputs {
      TakeRests(w, m, w.inputs[State(w, m).active.value], configured, committed, n);
    }
  }

  lemma TakeRests(w: World, m: Node, input: Input, configured: bool, committed: bool, n: Node)
    requires m != n && !AtRest(w, n)
    ensures !AtRest(DoTake(w, m, input, configured, committed), n)
  {
    hide Begun;
  }

  lemma CompleteRests(w: World, at: Address, outcome: Outcome, delivered: bool, recorded: bool, committed: bool,
                      n: Node, id: Id)
    requires at in w.loops && w.loops[at].node.address == at && !AtRest(w, n) && !w.loops[at].phase.Idle?
    ensures var w' := DoComplete(w, at, outcome, delivered, recorded, committed);
            !(AtRest(w', n) && State(w', n).active == Some(id))
  {
    hide PendingAt, Closed, Published, PromptFate, Publishes;
    var m := w.loops[at].node;
    var s := State(w, m);
    if s.active.Some? && s.active.value in w.inputs {
      var input := w.inputs[s.active.value];
      var w1 := Put(w, input, PromptFate(s, input, outcome, delivered));
      ClosedWithout(Published(s, input, Publishes(s, outcome, delivered)), PendingAt(w1, m.address), outcome);
    }
  }

  /** What is committed with its prompt kept is unresolved. */
  lemma ClosedWithout(s: Occurrence, q: seq<Input>, outcome: Outcome)
    ensures var (r, commits) := Closed(s, q, outcome); commits && r.active.Some? ==> r.unresolved
  {
    hide Settle;
  }

  lemma LoopIsIts(w: World, at: Address)
    requires Inv(w) && at in w.loops
    ensures w.loops[at].node.address == at
  {
  }

  lemma EnteredStays(w: World, l: Label)
    requires Enabled(w, l) && !l.Crash?
    ensures w.entered <= Apply(w, l).entered
  {
    hide PendingAt, DoLook, DoComplete, CanReturn;
    if l.Look? {
      LookRecordsNothing(w, l.at, l.configured, l.committed);
    } else if l.Complete? {
      CompleteRecordsNothing(w, l.at, l.outcome, l.delivered, l.recorded, l.committed);
    }
  }

  lemma SentHereStep(w: World, l: Label, n: Node, id: Id)
    requires Inv(w) && Enabled(w, l) && !l.Crash? && SentHere(w, n, id)
    ensures SentHere(Apply(w, l), n, id) && Adds(w.trace, Apply(w, l).trace, Prompted(n, id))
  {
    hide Adds, Apply, Inv;
    StaysOff(w, l, n, id);
    EnteredStays(w, l);
    if w.states[n].active == Some(id) { RestStep(w, l, n, id); }
    if l.Look? { LookSkips(w, l, n, id); } else { OthersAdd(w, l, Prompted(n, id)); }
  }

  lemma LookSkips(w: World, l: Label, n: Node, id: Id)
    requires Inv(w) && Enabled(w, l) && l.Look? && SentHere(w, n, id)
    ensures Adds(w.trace, Apply(w, l).trace, Prompted(n, id))
  {
    hide Adds, Inv, DoLook;
    LoopIsIts(w, l.at);
    LookAdds(w, l.at, l.configured, l.committed, Prompted(n, id));
  }

  lemma {:induction false} NotAgainHere(w: World, more: seq<Label>, n: Node, id: Id)
    requires Inv(w) && IsRun(w, more) && SentHere(w, n, id) && Crash !in more
    ensures NotSince(w.trace, After(w, more).trace, Prompted(n, id))
    decreases more
  {
    hide Inv, Enabled, Apply, SentHere, Adds;
    if more != [] {
      var v := Apply(w, more[0]);
      SentHereStep(w, more[0], n, id);
      StepKeeps(w, more[0]);
      NotAgainHere(v, more[1..], n, id);
      NotSinceThen(w.trace, v.trace, After(v, more[1..]).trace, Prompted(n, id));
    }
  }

  /** One process takes a prompt up at most once: after the step that does, only a crash lets it happen again. */
  lemma PromptOncePerProcess(run: seq<Label>, l: Label, more: seq<Label>, n: Node, id: Id)
    requires IsRun(INIT, run) && Enabled(After(INIT, run), l)
    requires Apply(After(INIT, run), l).trace == After(INIT, run).trace + [Prompted(n, id)]
    requires IsRun(Apply(After(INIT, run), l), more) && Crash !in more
    ensures NotSince(Apply(After(INIT, run), l).trace, After(Apply(After(INIT, run), l), more).trace, Prompted(n, id))
  {
    hide Inv, Enabled, Apply, SentHere, Adds, IsRun, After;
    Reachable(run);
    var w := After(INIT, run);
    EnteredRun(run);
    SendsHere(w, l, n, id);
    StepKeeps(w, l);
    NotAgainHere(Apply(w, l), more, n, id);
  }

  /** Every consumer belongs to an occurrence that this process entered. */
  ghost predicate LoopsEntered(w: World) { forall at | at in w.loops :: w.loops[at].node in w.entered }

  lemma {:induction false} EnteredFrom(w: World, run: seq<Label>)
    requires Inv(w) && IsRun(w, run) && LoopsEntered(w)
    ensures LoopsEntered(After(w, run))
    decreases run
  {
    hide Inv, Enabled, Apply, LoopsEntered;
    if run != [] {
      EnteredStep(w, run[0]);
      StepKeeps(w, run[0]);
      EnteredFrom(Apply(w, run[0]), run[1..]);
    }
  }

  lemma EnteredRun(run: seq<Label>)
    requires IsRun(INIT, run)
    ensures LoopsEntered(After(INIT, run))
  {
    hide Inv;
    InitOk();
    EnteredFrom(INIT, run);
  }

  lemma EnteredStep(w: World, l: Label)
    requires Inv(w) && Enabled(w, l) && LoopsEntered(w)
    ensures LoopsEntered(Apply(w, l))
  {
    hide Inv, PendingAt, DoLook, DoComplete, CanReturn, Follow;
    if l.Look? {
      LookEntered(w, l.at, l.configured, l.committed);
    } else if l.Complete? {
      CompleteEntered(w, l.at, l.outcome, l.delivered, l.recorded, l.committed);
    }
  }

  lemma LookEntered(w: World, at: Address, configured: bool, committed: bool)
    requires at in w.loops && w.loops[at].node in w.entered && LoopsEntered(w)
    ensures LoopsEntered(DoLook(w, at, configured, committed))
  {
    hide PendingAt, FirstFinish, DoTake;
    var m, q := w.loops[at].node, PendingAt(w, at);
    if State(w, m).active.Some? && State(w, m).active.value in w.inputs {
      TakeEntered(w, m, w.inputs[State(w, m).active.value], configured, committed);
    }
    if q != [] { TakeEntered(w, m, q[0], configured, committed); }
  }

  lemma TakeEntered(w: World, m: Node, input: Input, configured: bool, committed: bool)
    requires m in w.entered && LoopsEntered(w)
    ensures LoopsEntered(DoTake(w, m, input, configured, committed))
  {
    hide Begun;
  }

  lemma CompleteEntered(w: World, at: Address, outcome: Outcome, delivered: bool, recorded: bool, committed: bool)
    requires at in w.loops && w.loops[at].node in w.entered && LoopsEntered(w)
    ensures LoopsEntered(DoComplete(w, at, outcome, delivered, recorded, committed))
  {
    hide PendingAt, Closed, Published, PromptFate, Publishes;
  }

  lemma SendsHere(w: World, l: Label, n: Node, id: Id)
    requires Inv(w) && Enabled(w, l) && LoopsEntered(w) && Apply(w, l).trace == w.trace + [Prompted(n, id)]
    ensures !l.Crash? && SentHere(Apply(w, l), n, id)
  {
    hide PendingAt, Inv, DoLook, Adds, Generating, CanReturn;
    StepKeeps(w, l);
    WasConsumed(Apply(w, l), n, id);
    if l.Look? {
      LookSends(w, l.at, l.configured, l.committed, n, id);
    } else {
      OthersAdd(w, l, Prompted(n, id));
      AddsAnother(w.trace, Prompted(n, id));
    }
  }

  lemma LookSends(w: World, at: Address, configured: bool, committed: bool, n: Node, id: Id)
    requires Inv(w) && at in w.loops && w.loops[at].node in w.entered
    requires DoLook(w, at, configured, committed).trace == w.trace + [Prompted(n, id)]
    ensures var w' := DoLook(w, at, configured, committed);
            n in w'.entered && n.address in w'.loops && !w'.loops[n.address].phase.Idle?
  {
    hide PendingAt, DoTake, FirstFinish, Inv;
    var m, q := w.loops[at].node, PendingAt(w, at);
    if q != [] { TakeSends(w, m, q[0], configured, committed, n, id); }
    if State(w, m).active.Some? && State(w, m).active.value in w.inputs {
      TakeSends(w, m, w.inputs[State(w, m).active.value], configured, committed, n, id);
    }
  }

  lemma TakeSends(w: World, m: Node, input: Input, configured: bool, committed: bool, n: Node, id: Id)
    requires m in w.entered
    ensures var w' := DoTake(w, m, input, configured, committed);
            w'.trace == w.trace + [Prompted(n, id)] ==>
              n in w'.entered && n.address in w'.loops && !w'.loops[n.address].phase.Idle?
  {
    hide Begun;
    var w' := DoTake(w, m, input, configured, committed);
    if w'.trace == w.trace + [Prompted(n, id)] {
      assert w'.trace[|w.trace|] == Prompted(n, id);
      assert w'.trace != w.trace;
    }
  }

  // ---- each turn of a generation is asked once ----

  /** The generation is beyond asking this turn. */
  predicate Past(g: Gen, turn: nat) { turn < g.turn || (turn == g.turn && !g.stage.Due?) }

  ghost predicate AskedHere(w: World, n: Node, id: Id, turn: nat) {
    SentHere(w, n, id) && (n, id) in w.gens && Past(w.gens[(n, id)], turn)
  }

  lemma FollowPast(g: Gen, a: Answer, note: Note, canceled: bool, turn: nat)
    requires turn <= g.turn
    ensures Past(Follow(g, a, canceled), turn) && Past(Returned(g, a, note, canceled), turn)
  {
  }

  lemma PastStep(w: World, l: Label, n: Node, id: Id, turn: nat)
    requires Inv(w) && Enabled(w, l) && !l.Crash? && AskedHere(w, n, id, turn)
    ensures (n, id) in Apply(w, l).gens && Past(Apply(w, l).gens[(n, id)], turn)
  {
    hide Inv, Past, Follow, Returned, DoLook, DoComplete, PendingAt;
    if l.Look? {
      LoopIsIts(w, l.at);
      LookBegins(w, l.at, l.configured, l.committed, n, id);
    } else if l.Ask? {
      AskPast(w, l.at, l.canceled, n, id, turn);
    } else if l.Return? {
      ReturnPast(w, l.at, l.answer, l.note, l.canceled, n, id, turn);
    } else {
      OthersRecordNothing(w, l);
    }
  }

  lemma AskPast(w: World, at: Address, canceled: bool, n: Node, id: Id, turn: nat)
    requires Generating(w, at) && (n, id) in w.gens && Past(w.gens[(n, id)], turn)
    ensures var w' := DoAsk(w, at, canceled); (n, id) in w'.gens && Past(w'.gens[(n, id)], turn)
  {
    hide Follow;
    var key, g := Key(w, at), w.gens[Key(w, at)];
    if key == (n, id) && (n, id, g.turn) in w.settled {
      FollowPast(g, w.settled[(n, id, g.turn)], Unkept, canceled, turn);
    }
  }

  lemma ReturnPast(w: World, at: Address, a: Answer, note: Note, canceled: bool, n: Node, id: Id, turn: nat)
    requires Generating(w, at) && (n, id) in w.gens && Past(w.gens[(n, id)], turn)
    ensures var w' := DoReturn(w, at, a, note, canceled); (n, id) in w'.gens && Past(w'.gens[(n, id)], turn)
  {
    hide Returned;
    FollowPast(w.gens[(n, id)], a, note, canceled, turn);
  }

  lemma AskedHereStep(w: World, l: Label, n: Node, id: Id, turn: nat)
    requires Inv(w) && Enabled(w, l) && !l.Crash? && AskedHere(w, n, id, turn)
    ensures AskedHere(Apply(w, l), n, id, turn) && Adds(w.trace, Apply(w, l).trace, Asked(n, id, turn))
  {
    hide Inv, SentHere, Adds, Apply, DoLook;
    SentHereStep(w, l, n, id);
    PastStep(w, l, n, id, turn);
    if l.Look? { LookAsksNone(w, l, Asked(n, id, turn)); } else { OthersAdd(w, l, Asked(n, id, turn)); }
  }

  lemma LookAsksNone(w: World, l: Label, e: Event)
    requires Inv(w) && Enabled(w, l) && l.Look? && e.Asked?
    ensures Adds(w.trace, Apply(w, l).trace, e)
  {
    hide Inv, Adds, DoLook;
    LookAdds(w, l.at, l.configured, l.committed, e);
  }

  lemma {:induction false} NotAskedAgainHere(w: World, more: seq<Label>, n: Node, id: Id, turn: nat)
    requires Inv(w) && IsRun(w, more) && AskedHere(w, n, id, turn) && Crash !in more
    ensures NotSince(w.trace, After(w, more).trace, Asked(n, id, turn))
    decreases more
  {
    hide Inv, Enabled, Apply, AskedHere, Adds;
    if more != [] {
      var v := Apply(w, more[0]);
      AskedHereStep(w, more[0], n, id, turn);
      StepKeeps(w, more[0]);
      NotAskedAgainHere(v, more[1..], n, id, turn);
      NotSinceThen(w.trace, v.trace, After(v, more[1..]).trace, Asked(n, id, turn));
    }
  }

  /** What is asked is the turn that the consumer's own generation is at. */
  lemma AsksOwnTurn(w: World, l: Label, n: Node, id: Id, turn: nat)
    requires Inv(w) && Enabled(w, l) && Apply(w, l).trace == w.trace + [Asked(n, id, turn)]
    ensures l.Ask? && Key(w, l.at) == (n, id) && w.gens[(n, id)].turn == turn && (n, id, turn) !in w.settled
  {
    hide Inv, Adds, PendingAt, DoLook, Generating, CanReturn, Follow;
    AddsAnother(w.trace, Asked(n, id, turn));
    if l.Look? {
      LookAsksNone(w, l, Asked(n, id, turn));
    } else if !l.Ask? {
      OthersAdd(w, l, Asked(n, id, turn));
    } else {
      assert Apply(w, l).trace != w.trace;
      assert Apply(w, l).trace[|w.trace|] == Asked(n, id, turn);
    }
  }

  lemma AskedNow(w: World, l: Label, n: Node, id: Id, turn: nat)
    requires Inv(w) && Enabled(w, l) && LoopsEntered(w) && Apply(w, l).trace == w.trace + [Asked(n, id, turn)]
    ensures !l.Crash? && AskedHere(Apply(w, l), n, id, turn)
  {
    hide Inv, Adds, PendingAt, DoLook, CanReturn, Follow;
    AsksOwnTurn(w, l, n, id, turn);
    ActiveFacts(w, n, id);
    LoopIsIts(w, l.at);
  }

  /** One process asks each turn at most once. */
  lemma TurnOncePerProcess(run: seq<Label>, l: Label, more: seq<Label>, n: Node, id: Id, turn: nat)
    requires IsRun(INIT, run) && Enabled(After(INIT, run), l)
    requires Apply(After(INIT, run), l).trace == After(INIT, run).trace + [Asked(n, id, turn)]
    requires IsRun(Apply(After(INIT, run), l), more) && Crash !in more
    ensures NotSince(Apply(After(INIT, run), l).trace, After(Apply(After(INIT, run), l), more).trace, Asked(n, id, turn))
  {
    hide Inv, Enabled, Apply, AskedHere, Adds, IsRun, After, LoopsEntered;
    Reachable(run);
    var w := After(INIT, run);
    EnteredRun(run);
    AskedNow(w, l, n, id, turn);
    StepKeeps(w, l);
    NotAskedAgainHere(Apply(w, l), more, n, id, turn);
  }

  predicate FewTurns(trace: seq<Event>) { forall e | e in trace && e.Asked? :: 1 <= e.turn <= INVALID + FAILURES - 1 }

  lemma FewStep(w: World, l: Label)
    requires Inv(w) && Enabled(w, l) && FewTurns(w.trace)
    ensures FewTurns(Apply(w, l).trace)
  {
    hide Inv, Enabled, Apply;
    StepLater(w, l);
    forall e | e in Apply(w, l).trace && e.Asked? ensures 1 <= e.turn <= INVALID + FAILURES - 1 {
      if e !in w.trace { FewNow(w, l, e); }
    }
  }

  lemma FewNow(w: World, l: Label, e: Event)
    requires Inv(w) && Enabled(w, l) && e.Asked? && e !in w.trace && e in Apply(w, l).trace
    ensures 1 <= e.turn <= INVALID + FAILURES - 1
  {
    hide Inv, Adds, PendingAt, DoLook, CanReturn, Follow;
    if l.Look? {
      LookAsksNone(w, l, e);
      AddsNone(w.trace, Apply(w, l).trace, e);
    } else if l.Ask? && e == Asked(Key(w, l.at).0, Key(w, l.at).1, w.gens[Key(w, l.at)].turn) {
      GensOk(w, Key(w, l.at));
    } else {
      OthersAdd(w, l, e);
      AddsNone(w.trace, Apply(w, l).trace, e);
    }
  }

  lemma AddsNone(trace: seq<Event>, trace': seq<Event>, e: Event)
    requires Adds(trace, trace', e)
    ensures e in trace' ==> e in trace
  {
  }

  lemma GensOk(w: World, key: (Node, Id))
    requires Inv(w) && key in w.gens
    ensures GenOk(w.gens[key])
  {
    var (n, id) := key;
    assert (n, id) in w.gens;
  }

  lemma {:induction false} FewFrom(w: World, run: seq<Label>)
    requires Inv(w) && IsRun(w, run) && FewTurns(w.trace)
    ensures FewTurns(After(w, run).trace)
    decreases run
  {
    hide Inv, Enabled, Apply, FewTurns;
    if run != [] {
      FewStep(w, run[0]);
      StepKeeps(w, run[0]);
      FewFrom(Apply(w, run[0]), run[1..]);
    }
  }

  /** So one process asks the harness at most four times for a prompt: the first time, twice more after invalid answers,
  once more after a provider's session error. */
  lemma FourTurnsAtMost(run: seq<Label>, n: Node, id: Id, turn: nat)
    requires IsRun(INIT, run) && Asked(n, id, turn) in After(INIT, run).trace
    ensures 1 <= turn <= 4
  {
    hide Inv, IsRun, After;
    InitOk();
    FewFrom(INIT, run);
  }

  // ---- what a process read when it opened the run is enough ----

  /** `read` are the turns whose outcome the process found recorded when it opened the run. Those recorded since are
  turns that it will not come to again. */
  ghost predicate ReadEnough(w: World, read: map<(Node, Id, nat), Answer>) {
    && LoopsEntered(w) && (forall t | t in read :: t in w.settled && w.settled[t] == read[t])
    && forall n, id, k | (n, id, k) in w.settled && (n, id, k) !in read :: AskedHere(w, n, id, k)
  }

  lemma ReadEnoughStep(w: World, l: Label, read: map<(Node, Id, nat), Answer>)
    requires Inv(w) && Enabled(w, l) && !l.Crash? && ReadEnough(w, read)
    ensures ReadEnough(Apply(w, l), read)
  {
    hide Inv, Enabled, Apply, AskedHere, LoopsEntered;
    EnteredStep(w, l);
    SettledStays(w, l);
    forall n, id, k | (n, id, k) in Apply(w, l).settled && (n, id, k) !in read ensures AskedHere(Apply(w, l), n, id, k) {
      if (n, id, k) in w.settled { AskedHereStep(w, l, n, id, k); } else { NewlySettled(w, l, n, id, k); }
    }
  }

  lemma SettledStays(w: World, l: Label)
    requires Inv(w) && Enabled(w, l)
    ensures forall t | t in w.settled :: t in Apply(w, l).settled && Apply(w, l).settled[t] == w.settled[t]
    ensures forall t | t in Apply(w, l).settled && t !in w.settled ::
              l.Return? && l.note.Kept? && Key(w, l.at) == (t.0, t.1) && t.2 == w.gens[(t.0, t.1)].turn
  {
    hide Inv, PendingAt, DoLook, DoComplete, Follow, Returned;
    if l.Look? {
      LookRecordsNothing(w, l.at, l.configured, l.committed);
    } else if l.Return? {
      KeptIsNew(w, l.at, l.answer, l.note);
    } else if !l.Ask? && !l.Crash? {
      OthersRecordNothing(w, l);
    }
  }

  lemma KeptIsNew(w: World, at: Address, a: Answer, note: Note)
    requires Inv(w) && CanReturn(w, at, a, note)
    ensures var (n, id) := Key(w, at); note.Kept? ==> (n, id, w.gens[(n, id)].turn) !in w.settled
  {
    hide Inv;
    var (n, id) := Key(w, at);
    if w.gens[(n, id)].stage.Running? { RunningIsOpen(w, n, id); }
  }

  lemma RunningIsOpen(w: World, n: Node, id: Id)
    requires Inv(w) && (n, id) in w.gens && w.gens[(n, id)].stage.Running?
    ensures (n, id, w.gens[(n, id)].turn) !in w.settled
  {
    hide Ids, Lists, Actives, Loops, Sends, Finishes, Transcripts;
  }

  lemma NewlySettled(w: World, l: Label, n: Node, id: Id, k: nat)
    requires Inv(w) && Enabled(w, l) && LoopsEntered(w) && (n, id, k) !in w.settled && (n, id, k) in Apply(w, l).settled
    ensures AskedHere(Apply(w, l), n, id, k)
  {
    hide PendingAt, DoLook, DoComplete, Inv, Returned, Past;
    SettledStays(w, l);
    ActiveFacts(w, n, id);
    LoopIsIts(w, l.at);
    FollowPast(w.gens[(n, id)], l.answer, l.note, l.canceled, k);
  }

  /** One process keeps what it read: no turn that it will come to has been recorded since. */
  lemma {:induction false} ReadEnoughRun(w: World, run: seq<Label>, read: map<(Node, Id, nat), Answer>)
    requires Inv(w) && IsRun(w, run) && Crash !in run && ReadEnough(w, read)
    ensures ReadEnough(After(w, run), read)
    decreases run
  {
    hide Inv, Enabled, Apply, ReadEnough;
    if run != [] {
      ReadEnoughStep(w, run[0], read);
      StepKeeps(w, run[0]);
      ReadEnoughRun(Apply(w, run[0]), run[1..], read);
    }
  }

  /** The outcome of a turn that is due is recorded if and only if the process read it. */
  lemma ReadIsRecorded(w: World, at: Address, read: map<(Node, Id, nat), Answer>)
    requires ReadEnough(w, read) && Generating(w, at) && w.gens[Key(w, at)].stage.Due?
    ensures var (n, id) := Key(w, at);
            var turn := (n, id, w.gens[(n, id)].turn);
            && (turn in w.settled <==> turn in read) && (turn in read ==> read[turn] == w.settled[turn])
  {
    hide SentHere, LoopsEntered;
  }
}
