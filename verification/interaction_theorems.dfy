/** What the interaction protocol promises over every run from the empty journal. */
module InteractionTheorems {
  import opened Wrappers
  import opened Interaction
  import opened InteractionProofs

  // ---- safety of every reachable world ----

  lemma Reachable(run: seq<Label>)
    requires IsRun(INIT, run)
    ensures Inv(After(INIT, run))
  {
    InitOk();
    RunKeeps(INIT, run);
  }

  /** Every message is consumed at most once, by one occurrence, whatever is interleaved or crashes. */
  lemma ConsumedOnce(run: seq<Label>)
    requires IsRun(INIT, run)
    ensures var w := After(INIT, run);
            && (forall n | n in w.states :: Distinct(w.states[n].consumed))
            && (forall n, m, id | ConsumedBy(w.states, n, id) && ConsumedBy(w.states, m, id) :: n == m)
  {
    Reachable(run);
  }

  /** Within one occurrence a message is its turn's prompt or a landed steer, never both. */
  lemma PromptOrSteer(run: seq<Label>, n: Node, id: Id)
    requires IsRun(INIT, run)
    ensures var w := After(INIT, run); !(Prompted(n, id) in w.trace && Landed(n, id) in w.trace)
  {
    Reachable(run);
    assert Landed(n, id) in After(INIT, run).trace ==> LandedOk(After(INIT, run), n, id);
  }

  /** After a steer whose effect is unknown, nothing with that id is sent, as a steer or as a prompt, until a later
  answer says that it was not taken; and a steer that nobody answered is stored as inflight, uncertain or unprocessed.
  Of prompts this is not true: see interaction_prompts.dfy. */
  lemma SteerNeverResent(run: seq<Label>)
    requires IsRun(INIT, run)
    ensures var w := After(INIT, run);
            && CleanSends(w.trace)
            && (forall id | Doubt(w.trace, id) ::
                  id in w.inputs && w.inputs[id].disposition in {Inflight, Uncertain, Unprocessed})
  {
    Reachable(run);
  }

  /** The key lemma: an input that was delivered into an occurrence and is not consumed yet exists only while
  that occurrence has an active input. */
  lemma DeliveredOnlyWhileActive(run: seq<Label>, id: Id)
    requires IsRun(INIT, run)
    requires id in After(INIT, run).inputs && After(INIT, run).inputs[id].disposition == Delivered
    requires !Consumed(After(INIT, run).states, id)
    ensures exists n :: Landed(n, id) in After(INIT, run).trace
    ensures forall n | Landed(n, id) in After(INIT, run).trace :: State(After(INIT, run), n).active.Some?
  {
    Reachable(run);
    var w := After(INIT, run);
    forall n | Landed(n, id) in w.trace ensures State(w, n).active.Some? { assert LandedOk(w, n, id); }
  }

  /** Each message appears at most once in the transcripts, all occurrences taken together. */
  lemma ShownOnce(run: seq<Label>, n: Node, m: Node, id: Id)
    requires IsRun(INIT, run)
    requires n in After(INIT, run).states && m in After(INIT, run).states
    requires id in ShownIds(After(INIT, run).states[n].messages) && id in ShownIds(After(INIT, run).states[m].messages)
    ensures n == m && Distinct(ShownIds(After(INIT, run).states[n].messages))
  {
    Reachable(run);
    var w := After(INIT, run);
    assert ShownOk(w.states[n]) && ShownOk(w.states[m]);
    assert ConsumedBy(w.states, n, id) && ConsumedBy(w.states, m, id);
  }

  // ---- what every step leaves in place ----

  /** A committed occurrence grows by appending, and not at all once it has ended. */
  ghost predicate Grown(s: Occurrence, t: Occurrence) {
    s.consumed <= t.consumed && s.messages <= t.messages && (s.endedBy != Open ==> t == s)
  }

  ghost predicate StatesGrow(w: World, w': World) {
    forall n | n in w.states :: n in w'.states && Grown(w.states[n], w'.states[n])
  }

  ghost predicate ContentsStay(w: World, w': World) {
    forall id | id in w.inputs :: id in w'.inputs && w'.inputs[id].content == w.inputs[id].content
  }

  ghost predicate FinishedAt(w: World, at: Address) {
    exists f :: f in w.inputs && w.inputs[f].content.finish && w.inputs[f].content.address == at
  }

  /** Once a finish is accepted at an address no id is new there. */
  ghost predicate IngressClosed(w: World, w': World) {
    forall id | id in w'.inputs && id !in w.inputs :: !FinishedAt(w, w'.inputs[id].content.address)
  }

  ghost predicate Later(w: World, w': World) {
    StatesGrow(w, w') && ContentsStay(w, w') && IngressClosed(w, w') && w.trace <= w'.trace
  }

  lemma PrefixTrans<T>(a: seq<T>, b: seq<T>, c: seq<T>)
    requires a <= b && b <= c
    ensures a <= c
  {
  }

  lemma LaterTrans(u: World, v: World, w: World)
    requires Later(u, v) && Later(v, w)
    ensures Later(u, w)
  {
    forall n | n in u.states ensures n in w.states && Grown(u.states[n], w.states[n]) {
      PrefixTrans(u.states[n].consumed, v.states[n].consumed, w.states[n].consumed);
      PrefixTrans(u.states[n].messages, v.states[n].messages, w.states[n].messages);
    }
    forall at ensures FinishedAt(u, at) ==> FinishedAt(v, at) {
      if f :| f in u.inputs && u.inputs[f].content.finish && u.inputs[f].content.address == at {
        assert f in v.inputs && v.inputs[f].content == u.inputs[f].content;
      }
    }
  }

  lemma SettleGrows(s: Occurrence, q: seq<Input>)
    ensures s.consumed <= Settle(s, q).consumed && s.messages <= Settle(s, q).messages
    ensures Settle(s, q).endedBy == s.endedBy
    decreases q
  {
    if q != [] {
      var s' := SettleOne(s, q[0]);
      SettleGrows(s', q[1..]);
      PrefixTrans(s.consumed, s'.consumed, Settle(s', q[1..]).consumed);
      PrefixTrans(s.messages, s'.messages, Settle(s', q[1..]).messages);
    }
  }

  lemma ClosedGrows(s: Occurrence, input: Input, publish: bool, q: seq<Input>, outcome: Outcome)
    requires s.endedBy == Open
    ensures Grown(s, Closed(Published(s, input, publish), q, outcome).0)
  {
    var s1 := Published(s, input, publish);
    var t, r := Settle(s1, q), Closed(s1, q, outcome).0;
    SettleGrows(s1, q);
    PrefixTrans(s.messages, s1.messages, t.messages);
    assert t.messages <= r.messages && r.consumed == t.consumed;
    PrefixTrans(s.messages, t.messages, r.messages);
  }

  /** A step that commits at most one occurrence, which grew, and changes no input. */
  lemma CommitLater(w: World, n: Node, s: Occurrence, w': World)
    requires Grown(State(w, n), s) && w'.states in {w.states, w.states[n := s]}
    requires w'.inputs == w.inputs && w.trace <= w'.trace
    ensures Later(w, w')
  {
  }

  lemma LookLater(w: World, at: Address, configured: bool, committed: bool)
    requires at in w.loops && State(w, w.loops[at].node).endedBy == Open
    ensures Later(w, DoLook(w, at, configured, committed))
  {
    var n, q := w.loops[at].node, PendingAt(w, at);
    var s := State(w, n);
    if s.active.None? && FirstFinish(q).Some? {
      FinishLater(w, n, FirstFinish(q).value.id, committed);
    } else if s.active.Some? && s.active.value in w.inputs {
      TakeLater(w, n, w.inputs[s.active.value], configured, committed);
    } else if q != [] {
      TakeLater(w, n, q[0], configured, committed);
    } else {
      CommitLater(w, n, State(DoLook(w, at, configured, committed), n), DoLook(w, at, configured, committed));
    }
  }

  lemma FinishLater(w: World, n: Node, id: Id, committed: bool)
    requires State(w, n).endedBy == Open
    ensures Later(w, DoFinish(w, n, id, committed))
  {
    var w' := DoFinish(w, n, id, committed);
    CommitLater(w, n, State(w', n), w');
  }

  lemma TakeLater(w: World, n: Node, input: Input, configured: bool, committed: bool)
    requires State(w, n).endedBy == Open
    ensures Later(w, DoTake(w, n, input, configured, committed))
  {
    var s, w' := State(w, n), DoTake(w, n, input, configured, committed);
    if input.disposition in {Uncertain, Inflight} {
      CommitLater(w, n, s.(unresolved := true), w');
    } else if input.content.configure || input.content.stop {
      CommitLater(w, n, s.(consumed := s.consumed + [input.id]), w');
    } else {
      CommitLater(w, n, Begun(s, input.id), w');
    }
  }

  lemma CompleteLater(w: World, at: Address, outcome: Outcome, delivered: bool, recorded: bool, committed: bool)
    requires at in w.loops && State(w, w.loops[at].node).endedBy == Open
    requires forall id | id in w.inputs :: w.inputs[id].id == id
    ensures Later(w, DoComplete(w, at, outcome, delivered, recorded, committed))
  {
    var n := w.loops[at].node;
    var s := State(w, n);
    if s.active.Some? && s.active.value in w.inputs {
      RecordLater(w, n, w.inputs[s.active.value], outcome, delivered, committed);
    }
  }

  lemma RecordLater(w: World, n: Node, input: Input, outcome: Outcome, delivered: bool, committed: bool)
    requires State(w, n).endedBy == Open && input.id in w.inputs && w.inputs[input.id].content == input.content
    ensures Later(w, DoRecord(w, n, input, outcome, delivered, committed))
  {
    var s := State(w, n);
    var w1 := Put(w, input, PromptFate(s, input, outcome, delivered));
    ClosedGrows(s, input, Publishes(s, outcome, delivered), PendingAt(w1, n.address), outcome);
    InputLater(w, w1);
    ConcludeLater(w1, n, Closed(Published(s, input, Publishes(s, outcome, delivered)), PendingAt(w1, n.address), outcome), committed);
    LaterTrans(w, w1, DoRecord(w, n, input, outcome, delivered, committed));
  }

  lemma ConcludeLater(w: World, n: Node, closed: (Occurrence, bool), committed: bool)
    requires Grown(State(w, n), closed.0)
    ensures Later(w, Conclude(w, n.address, n, closed, committed))
  {
    CommitLater(w, n, closed.0, Conclude(w, n.address, n, closed, committed));
  }

  lemma InputLater(w: World, w': World)
    requires w'.states == w.states && w.trace <= w'.trace && ContentsStay(w, w') && w'.inputs.Keys == w.inputs.Keys
    ensures Later(w, w')
  {
  }

  lemma SteerLater(w: World, at: Address, recorded: bool)
    requires Inv(w) && at in w.loops && w.loops[at].phase.Turn? && w.loops[at].phase.rest != []
    ensures Later(w, DoSteer(w, at, recorded))
  {
    hide Later, Ids, Lists, Turns, Actives, Sends, Finishes, Transcripts;
    assert LoopOk(w, at, w.loops[at]) && EntryOk(w, w.loops[at].node, w.loops[at].phase.rest[0]);
    InputLater(w, DoSteer(w, at, recorded));
  }

  lemma AnswerLater(w: World, at: Address, landed: bool, failed: bool, recorded: bool)
    requires Inv(w) && at in w.loops && w.loops[at].phase.Sending?
    ensures Later(w, DoAnswer(w, at, landed, failed, recorded))
  {
    hide Later, Ids, Lists, Turns, Actives, Sends, Finishes, Transcripts;
    assert LoopOk(w, at, w.loops[at]);
    InputLater(w, DoAnswer(w, at, landed, failed, recorded));
  }

  lemma AcceptLater(w: World, id: Id, c: Content, terminal: bool, turnMatches: bool)
    ensures Later(w, DoAccept(w, id, c, terminal, turnMatches))
  {
  }

  /** Every running loop serves an occurrence of its own address that is still open. */
  lemma OpenAt(w: World, at: Address)
    requires Inv(w) && at in w.loops
    ensures w.loops[at].node.address == at && State(w, w.loops[at].node).endedBy == Open
  {
    assert LoopOk(w, at, w.loops[at]);
  }

  lemma StepLater(w: World, l: Label)
    requires Inv(w) && Enabled(w, l)
    ensures Later(w, Apply(w, l))
  {
    match l
    case Accept(id, c, terminal, turnMatches) => AcceptLater(w, id, c, terminal, turnMatches);
    case Look(at, configured, committed) => OpenAt(w, at); LookLater(w, at, configured, committed);
    case Complete(at, outcome, delivered, recorded, committed) =>
      OpenAt(w, at);
      CompleteLater(w, at, outcome, delivered, recorded, committed);
    case Steer(at, recorded) => SteerLater(w, at, recorded);
    case Answer(at, landed, failed, recorded) => AnswerLater(w, at, landed, failed, recorded);
    case _ => QuietLater(w, l);
  }

  lemma QuietLater(w: World, l: Label)
    requires Enabled(w, l) && (l.Enter? || l.Wake? || l.Leave? || l.Ask? || l.Return? || l.CloseInputs? || l.EndScope? || l.Crash?)
    ensures Later(w, Apply(w, l))
  {
    InputLater(w, Apply(w, l));
  }

  lemma {:induction false} RunLater(w: World, run: seq<Label>)
    requires Inv(w) && IsRun(w, run)
    ensures Later(w, After(w, run))
    decreases run
  {
    if run != [] {
      var v := Apply(w, run[0]);
      StepLater(w, run[0]);
      StepKeeps(w, run[0]);
      RunLater(v, run[1..]);
      LaterTrans(w, v, After(v, run[1..]));
    }
  }

  lemma {:induction false} RunSplit(w: World, run: seq<Label>, more: seq<Label>)
    requires IsRun(w, run + more)
    ensures IsRun(w, run) && IsRun(After(w, run), more) && After(w, run + more) == After(After(w, run), more)
    decreases run
  {
    if run == [] {
      assert run + more == more;
    } else {
      assert (run + more)[1..] == run[1..] + more;
      RunSplit(Apply(w, run[0]), run[1..], more);
    }
  }

  /** Over any extension of any run: transcripts and consumed lists only grow by appending, an occurrence that
  ended stays exactly as it was, what was accepted never changes, and the address of an accepted finish takes
  no new id. */
  lemma TranscriptsGrow(run: seq<Label>, more: seq<Label>)
    requires IsRun(INIT, run + more)
    ensures IsRun(INIT, run) && Later(After(INIT, run), After(INIT, run + more))
  {
    RunSplit(INIT, run, more);
    Reachable(run);
    RunLater(After(INIT, run), more);
  }

  // ---- activation ----

  /** `l` makes `id` the active input of `n`, which was between turns. */
  ghost predicate Activates(w: World, l: Label, n: Node, id: Id)
    requires Enabled(w, l)
  {
    State(w, n).active != Some(id) && State(Apply(w, l), n).active == Some(id)
  }

  lemma ActivationIsLook(w: World, l: Label, n: Node, id: Id)
    requires Inv(w) && Enabled(w, l) && Activates(w, l, n, id)
    ensures l.Look? && w.loops[l.at].node == n && l.at == n.address && l.committed
    ensures State(w, n).active.None? && FirstFinish(PendingAt(w, n.address)).None?
    ensures PendingAt(w, n.address) != [] && PendingAt(w, n.address)[0].id == id
    ensures PendingAt(w, n.address)[0].disposition !in {Uncertain, Inflight}
    ensures Prompted(n, id) in Apply(w, l).trace
  {
    if l.Look? {
      OpenAt(w, l.at);
      LookActivates(w, l.at, l.configured, l.committed, n, id);
    } else if l.Complete? {
      CompleteActivatesNone(w, l.at, l.outcome, l.delivered, l.recorded, l.committed, n);
    } else {
      OthersActivateNone(w, l, n);
    }
  }

  lemma OthersActivateNone(w: World, l: Label, n: Node)
    requires Enabled(w, l) && !l.Look? && !l.Complete?
    ensures State(Apply(w, l), n) == State(w, n)
  {
  }

  lemma LookActivates(w: World, at: Address, configured: bool, committed: bool, n: Node, id: Id)
    requires at in w.loops && w.loops[at].node.address == at
    requires forall i | i in w.inputs :: w.inputs[i].id == i
    requires State(w, n).active != Some(id) && State(DoLook(w, at, configured, committed), n).active == Some(id)
    ensures w.loops[at].node == n && committed
    ensures State(w, n).active.None? && FirstFinish(PendingAt(w, at)).None?
    ensures PendingAt(w, at) != [] && PendingAt(w, at)[0].id == id
    ensures PendingAt(w, at)[0].disposition !in {Uncertain, Inflight}
    ensures Prompted(n, id) in DoLook(w, at, configured, committed).trace
  {
    var m, q := w.loops[at].node, PendingAt(w, at);
    if q != [] { TakeActivates(w, m, q[0], configured, committed, n); }
    if State(w, m).active.Some? && State(w, m).active.value in w.inputs {
      TakeActivates(w, m, w.inputs[State(w, m).active.value], configured, committed, n);
    }
  }

  lemma TakeActivates(w: World, m: Node, input: Input, configured: bool, committed: bool, n: Node)
    ensures var w' := DoTake(w, m, input, configured, committed);
            && (State(w', n).active == State(w, n).active || (n == m && State(w, n).active.None? && committed
                  && State(w', n).active == Some(input.id)
                  && Prompted(n, input.id) in w'.trace
                  && input.disposition !in {Uncertain, Inflight}))
  {
    hide Dispatch, Begun;
    if input.disposition !in {Uncertain, Inflight} && committed && !input.content.configure && !input.content.stop {
      BegunActivates(w, m, input.id, n);
    }
  }

  lemma BegunActivates(w: World, m: Node, id: Id, n: Node)
    ensures var w', s := Dispatch(At(Commit(w, m, Begun(State(w, m), id)), m.address, m, Turn([])), m, id), State(w, m);
            && (n != m ==> State(w', n) == State(w, n))
            && (s.active.Some? ==> State(w', m).active == s.active)
            && (s.active.None? ==> State(w', m).active == Some(id))
            && Prompted(m, id) in w'.trace
  {
    TraceMember(w.trace, Prompted(m, id));
  }

  lemma CompleteActivatesNone(w: World, at: Address, outcome: Outcome, delivered: bool, recorded: bool,
                              committed: bool, n: Node)
    requires at in w.loops
    ensures State(DoComplete(w, at, outcome, delivered, recorded, committed), n).active in {None, State(w, n).active}
  {
    var m := w.loops[at].node;
    var s := State(w, m);
    if s.active.Some? && s.active.value in w.inputs {
      var input := w.inputs[s.active.value];
      var s1 := Published(s, input, Publishes(s, outcome, delivered));
      var w1 := Put(w, input, PromptFate(s, input, outcome, delivered));
      ClosedActive(s1, PendingAt(w1, m.address), outcome);
    }
  }

  lemma ClosedActive(s: Occurrence, q: seq<Input>, outcome: Outcome)
    ensures Closed(s, q, outcome).0.active in {None, s.active}
  {
    SettleKeepsActive(s, q);
  }

  lemma SettleKeepsActive(s: Occurrence, q: seq<Input>)
    ensures Settle(s, q).active == s.active
    decreases q
  {
    if q != [] { SettleKeepsActive(SettleOne(s, q[0]), q[1..]); }
  }

  lemma FinishStopsStep(w: World, l: Label, n: Node, id: Id, f: Id)
    requires Inv(w) && Enabled(w, l) && Activates(w, l, n, id)
    requires f in w.inputs && w.inputs[f].content.finish && w.inputs[f].content.address == n.address
    ensures !ConsumedBy(w.states, n, f)
    ensures w.inputs[f].disposition == Unprocessed || exists m :: m != n && ConsumedBy(w.states, m, f)
  {
    ActivationIsLook(w, l, n, id);
    assert LoopOk(w, l.at, w.loops[l.at]);
    SnapshotOk(w, n);
    FinishFound(PendingAt(w, n.address));
    assert forall i | IsPending(w, n.address, i) :: w.inputs[i] in PendingAt(w, n.address);
  }

  /** No input becomes active in an occurrence that holds a finish, nor while one is waiting at its address:
  every accepted finish was closed unprocessed or taken by another occurrence. */
  lemma FinishStopsActivation(run: seq<Label>, l: Label, n: Node, id: Id, f: Id)
    requires IsRun(INIT, run) && Enabled(After(INIT, run), l) && Activates(After(INIT, run), l, n, id)
    requires f in After(INIT, run).inputs && After(INIT, run).inputs[f].content.finish
    requires After(INIT, run).inputs[f].content.address == n.address
    ensures var w := After(INIT, run);
            && !ConsumedBy(w.states, n, f)
            && (w.inputs[f].disposition == Unprocessed || exists m :: m != n && ConsumedBy(w.states, m, f))
  {
    hide Inv;
    Reachable(run);
    FinishStopsStep(After(INIT, run), l, n, id, f);
  }

  /** The prompt of an occurrence was already steered into another one exactly when it is stored as delivered. */
  lemma PromptWasSteered(run: seq<Label>, l: Label, n: Node, id: Id)
    requires IsRun(INIT, run) && Enabled(After(INIT, run), l) && Activates(After(INIT, run), l, n, id)
    ensures var w := After(INIT, run);
            id in w.inputs && ((exists m :: Landed(m, id) in w.trace) <==> w.inputs[id].disposition == Delivered)
  {
    hide Inv;
    Reachable(run);
    PromptWasSteeredStep(After(INIT, run), l, n, id);
  }

  lemma PromptWasSteeredStep(w: World, l: Label, n: Node, id: Id)
    requires Inv(w) && Enabled(w, l) && Activates(w, l, n, id)
    ensures id in w.inputs
    ensures (exists m :: Landed(m, id) in w.trace) <==> w.inputs[id].disposition == Delivered
  {
    ActivationIsLook(w, l, n, id);
    SnapshotOk(w, n);
    assert IsPending(w, n.address, id);
    if m :| Landed(m, id) in w.trace { assert LandedOk(w, m, id); }
  }

  // ---- a message may be seen twice, by two occurrences ----

  const HERE := Address("", "chat")
  const FIRST := Node(HERE, 1)
  const SECOND := Node(HERE, 2)
  const TEXT := Content(HERE, "hi", false, false, false, "", "")

  const P := Input("p", TEXT, Pending)
  const Q := Input("q", TEXT, Pending)
  const PROMPTING := Occurrence(Some("p"), false, false, ["p"], [], Open, false)

  /** The worlds of one run: prompt "p" in the first occurrence, steer "q" into its turn, let the turn fail, and
  enter the second occurrence. */
  const ENTERED := At(INIT.(entered := {FIRST}), HERE, FIRST, Idle)
  const ACCEPTED := ENTERED.(inputs := INIT.inputs["p" := P], order := INIT.order + ["p"])
  const BEGUN := Dispatch(At(Commit(ACCEPTED, FIRST, PROMPTING), HERE, FIRST, Turn([])), FIRST, "p")
  const RUNNING := Emit(Advance(BEGUN, (FIRST, "p"), START.(stage := Running)), Asked(FIRST, "p", 1))
  const QUEUED := RUNNING.(inputs := RUNNING.inputs["q" := Q], order := RUNNING.order + ["q"])
  const WOKEN := At(QUEUED, HERE, FIRST, Turn([Q]))
  const STEERING := Emit(At(Put(WOKEN, Q, Inflight), HERE, FIRST, Sending(Q, [])), SteerSent(FIRST, "q"))
  const STEERED := Emit(At(Put(STEERING, Q, Delivered), HERE, FIRST, Turn([])), Landed(FIRST, "q"))
  const FAILURE := Erred(false, false, false, false)
  const RETURNED := Advance(STEERED, (FIRST, "p"), START.(stage := Over(Failed(false, false))))
                      .(settled := map[(FIRST, "p", 1) := FAILURE])
  const FAILED := Exit(Put(RETURNED, P, Delivered), HERE)
  const AGAIN := At(FAILED.(entered := {FIRST, SECOND}), HERE, SECOND, Idle)
  const REUSED := Dispatch(At(Commit(AGAIN, SECOND, Begun(NEW, "q")), HERE, SECOND, Turn([])), SECOND, "q")

  ghost predicate Reaches(v: World) { exists run :: IsRun(INIT, run) && After(INIT, run) == v }

  lemma {:induction false} Append(w: World, run: seq<Label>, l: Label)
    requires IsRun(w, run) && Enabled(After(w, run), l)
    ensures IsRun(w, run + [l]) && After(w, run + [l]) == Apply(After(w, run), l)
    decreases run
  {
    if run == [] {
      assert run + [l] == [l] && [l][1..] == [];
    } else {
      assert (run + [l])[1..] == run[1..] + [l];
      Append(Apply(w, run[0]), run[1..], l);
    }
  }

  lemma ReachStep(v: World, l: Label, v': World)
    requires Reaches(v) && Enabled(v, l) && Apply(v, l) == v'
    ensures Reaches(v')
  {
    var run :| IsRun(INIT, run) && After(INIT, run) == v;
    Append(INIT, run, l);
  }

  lemma OnlyFirst(states: map<Node, Occurrence>, id: Id)
    requires states == map[FIRST := PROMPTING]
    ensures Consumed(states, id) <==> id == "p"
  {
    assert ConsumedBy(states, FIRST, "p");
  }

  lemma QueueOfOne(w: World)
    requires w.order == ["p"] && w.inputs == map["p" := P] && w.states == map[]
    ensures PendingAt(w, HERE) == [P]
  {
    assert w.order[1..] == [] && IsPending(w, HERE, "p");
    assert Queue(w, HERE, w.order) == [P] + Queue(w, HERE, w.order[1..]);
  }

  lemma QueueOfTwo(w: World)
    requires w.order == ["p", "q"] && w.inputs.Keys == {"p", "q"} && w.states == map[FIRST := PROMPTING]
    requires w.inputs["q"].content == TEXT && w.inputs["q"].disposition != Unprocessed
    ensures PendingAt(w, HERE) == [w.inputs["q"]]
  {
    OnlyFirst(w.states, "p");
    OnlyFirst(w.states, "q");
    assert w.order[1..] == ["q"] && ["q"][1..] == [];
    assert IsPending(w, HERE, "q") && !IsPending(w, HERE, "p");
    assert Queue(w, HERE, ["q"]) == [w.inputs["q"]];
    assert Queue(w, HERE, w.order) == Queue(w, HERE, w.order[1..]);
  }

  lemma ReachAccepted()
    ensures Reaches(ACCEPTED)
  {
    assert IsRun(INIT, []) && After(INIT, []) == INIT;
    ReachStep(INIT, Enter(FIRST), ENTERED);
    assert Judge(ENTERED, "p", TEXT, false, true).Accepted?;
    ReachStep(ENTERED, Accept("p", TEXT, false, true), ACCEPTED);
  }

  lemma ReachRunning()
    requires Reaches(ACCEPTED)
    ensures Reaches(RUNNING)
  {
    QueueOfOne(ACCEPTED);
    assert FirstFinish([P]).None?;
    ReachStep(ACCEPTED, Look(HERE, true, true), BEGUN);
    ReachStep(BEGUN, Ask(HERE, false), RUNNING);
  }

  lemma ReachQueued()
    requires Reaches(RUNNING)
    ensures Reaches(QUEUED)
  {
    assert Judge(RUNNING, "q", TEXT, false, true).Accepted?;
    ReachStep(RUNNING, Accept("q", TEXT, false, true), QUEUED);
  }

  lemma ReachSteered()
    requires Reaches(QUEUED)
    ensures Reaches(STEERED)
  {
    QueueOfTwo(QUEUED);
    ReachStep(QUEUED, Wake(HERE), WOKEN);
    assert [Q][1..] == [];
    ReachStep(WOKEN, Steer(HERE, true), STEERING);
    ReachStep(STEERING, Answer(HERE, true, false, true), STEERED);
  }

  lemma NotClosed(s: Occurrence, q: Input)
    requires Plain(q.content) && q.disposition == Delivered && !s.unresolved
    ensures !Closed(s, [q], Failed(false, false)).1
  {
    assert [q][1..] == [] && Settle(s, [q]) == SettleOne(s, q);
  }

  lemma ReachReturned()
    requires Reaches(STEERED)
    ensures Reaches(RETURNED)
  {
    ReachStep(STEERED, Return(HERE, FAILURE, Kept(FAILURE), false), RETURNED);
  }

  const FAILING := Complete(HERE, Failed(false, false), true, true, true)

  lemma FailingEnabled()
    ensures Enabled(RETURNED, FAILING)
  {
  }

  lemma ReturnedFails()
    ensures DoComplete(RETURNED, HERE, Failed(false, false), true, true, true) == FAILED
  {
    hide Queue, Settle, Closed;
    var s1 := Published(PROMPTING, P, true);
    QueueOfTwo(Put(RETURNED, P, Delivered));
    NotClosed(s1, RETURNED.inputs["q"]);
    assert RETURNED.inputs["p"] == P;
    assert DoRecord(RETURNED, FIRST, P, Failed(false, false), true, true) == FAILED;
  }

  lemma ReachFailed()
    requires Reaches(RETURNED)
    ensures Reaches(FAILED)
  {
    hide Reaches, Enabled, DoComplete;
    FailingEnabled();
    ReturnedFails();
    ReachStep(RETURNED, FAILING, FAILED);
  }

  lemma ReachAgain()
    requires Reaches(FAILED)
    ensures Reaches(AGAIN)
  {
    ReachStep(FAILED, Enter(SECOND), AGAIN);
  }

  lemma AgainTakes()
    ensures "q" in AGAIN.inputs && DoTake(AGAIN, SECOND, AGAIN.inputs["q"], true, true) == REUSED
  {
  }

  lemma LookTakes(w: World, at: Address, q: Input)
    requires at in w.loops && State(w, w.loops[at].node).active.None? && PendingAt(w, at) == [q] && !q.content.finish
    ensures DoLook(w, at, true, true) == DoTake(w, w.loops[at].node, q, true, true)
  {
    hide PendingAt, DoTake;
    assert FirstFinish([q]).None?;
  }

  lemma AgainPrompts()
    ensures DoLook(AGAIN, HERE, true, true) == REUSED
  {
    hide DoTake, DoLook;
    AgainTakes();
    QueueOfTwo(AGAIN);
    LookTakes(AGAIN, HERE, AGAIN.inputs["q"]);
  }

  lemma ReachReused()
    requires Reaches(AGAIN)
    ensures Reaches(REUSED)
  {
    hide Reaches, DoLook;
    AgainPrompts();
    ReachStep(AGAIN, Look(HERE, true, true), REUSED);
  }

  /** The promise is per occurrence only: a steer landed in a turn that then fails is left pending, and the next
  occurrence at the address prompts with it. */
  lemma SteerIsReused()
    ensures exists run, n, m, id :: IsRun(INIT, run) && n != m &&
              Landed(n, id) in After(INIT, run).trace && Prompted(m, id) in After(INIT, run).trace
  {
    ReachAccepted();
    ReachRunning();
    ReachQueued();
    ReachSteered();
    ReachReturned();
    ReachFailed();
    ReachAgain();
    ReachReused();
    var run :| IsRun(INIT, run) && After(INIT, run) == REUSED;
    TraceMember(STEERING.trace, Landed(FIRST, "q"));
    TraceMember(AGAIN.trace, Prompted(SECOND, "q"));
    assert Landed(FIRST, "q") in After(INIT, run).trace && Prompted(SECOND, "q") in After(INIT, run).trace;
  }
}
