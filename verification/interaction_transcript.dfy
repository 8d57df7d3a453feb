/** What an occurrence's transcript holds (interactive.go:255-330): which step adds which entry, for every step of every
run, said of the queue and the answer as they are and not of how the completion is computed. */
module InteractionTranscripts {
  import opened Wrappers
  import opened Interaction
  import opened InteractionProofs
  import opened InteractionTheorems
  import opened InteractionProcess
  import opened InteractionPrompts

  // ---- what a queue contributes ----

  predicate Shows(e: Input) { !e.content.finish && !e.content.stop && e.disposition.Delivered? }

  /** The steers that landed, in order of acceptance. */
  function Landings(q: seq<Input>): seq<Entry> {
    if q == [] then [] else (if Shows(q[0]) then [User(q[0].id, q[0].content.message)] else []) + Landings(q[1..])
  }

  /** What leaves the queue: finishes, stops and landed steers. */
  function Served(q: seq<Input>): seq<Id> {
    if q == [] then []
    else (if q[0].content.finish || q[0].content.stop || q[0].disposition.Delivered? then [q[0].id] else []) + Served(q[1..])
  }

  ghost predicate Finishing(q: seq<Input>) { exists i :: 0 <= i < |q| && q[i].content.finish }

  function PromptEntry(s: Occurrence, input: Input, outcome: Outcome, delivered: bool): seq<Entry> {
    if !s.published && (outcome.Succeeded? || delivered) then [User(input.id, input.content.message)] else []
  }

  function Reply(outcome: Outcome): seq<Entry> {
    match outcome
    case Succeeded(Chat(text)) => [Assistant(text)]
    case _ => []
  }

  /** Somebody has to look into it: a delivery is in doubt, or the turn is and no stop was enough. */
  predicate Doubted(s: Occurrence, q: seq<Input>, outcome: Outcome, delivered: bool) {
    s.unresolved || Unanswered(q) || (outcome.Failed? && outcome.uncertain && !StopIsEnough(s, q, delivered))
  }

  lemma OneMore(q: seq<Input>)
    requires q != []
    ensures Served(q) == Served([q[0]]) + Served(q[1..]) && Landings(q) == Landings([q[0]]) + Landings(q[1..])
  {
    assert [q[0]][1..] == [];
  }

  lemma SettlesOne(s: Occurrence, e: Input)
    ensures var t := SettleOne(s, e);
            && t == s.(consumed := t.consumed, messages := t.messages, unresolved := t.unresolved)
            && t.consumed == s.consumed + Served([e]) && t.messages == s.messages + Landings([e])
  {
    assert [e][1..] == [];
  }

  lemma {:induction false} SettleExactly(s: Occurrence, q: seq<Input>)
    ensures var t := Settle(s, q);
            && t == s.(consumed := t.consumed, messages := t.messages, unresolved := t.unresolved)
            && t.consumed == s.consumed + Served(q) && t.messages == s.messages + Landings(q)
            && t.unresolved == (s.unresolved || Unanswered(q))
    decreases q
  {
    hide Served, Landings, SettleOne, Unanswered;
    SettleResolves(s, q);
    if q == [] {
      NothingServed();
    } else {
      SettlesOne(s, q[0]);
      OneMore(q);
      SettleExactly(SettleOne(s, q[0]), q[1..]);
    }
  }

  lemma NothingServed()
    ensures Served([]) == [] && Landings([]) == []
  {
  }

  // ---- the completion, exactly ----

  /** What the completion leaves of the occurrence, where both writes are accepted. */
  ghost predicate Completed(s: Occurrence, s': Occurrence, input: Input, q: seq<Input>, outcome: Outcome, delivered: bool) {
    var shown := s.messages + PromptEntry(s, input, outcome, delivered) + Landings(q);
    var published := s.published || outcome.Succeeded? || delivered;
    var consumed := s.consumed + Served(q);
    if Doubted(s, q, outcome, delivered) then
      s' == Occurrence(s.active, published, true, consumed, shown, s.endedBy, s.waiting)
    else if TakesOff(s, q, outcome, delivered) then
      var endedBy := if Finishing(q) then ByHuman else if outcome == Succeeded(End) then ByAgent else s.endedBy;
      s' == Occurrence(None, published, false, consumed, shown + Reply(outcome), endedBy, endedBy == Open)
    else s' == s
  }

  lemma ClosedExactly(s: Occurrence, input: Input, q: seq<Input>, outcome: Outcome, delivered: bool)
    requires s.active.Some?
    ensures var s1 := Published(s, input, Publishes(s, outcome, delivered));
            var (r, commits) := Closed(s1, q, outcome);
            && Completed(s, if commits then r else s, input, q, outcome, delivered)
            && (commits <==> Doubted(s, q, outcome, delivered) || TakesOff(s, q, outcome, delivered))
  {
    hide Settle, Unanswered, HasStop;
    var s1 := Published(s, input, Publishes(s, outcome, delivered));
    SettleExactly(s1, q);
    FinishFound(q);
    assert s1.messages == s.messages + PromptEntry(s, input, outcome, delivered);
    var shown := s1.messages + Landings(q);
    assert shown + [] == shown;
  }

  lemma {:induction false} FinishFound(q: seq<Input>)
    ensures FirstFinish(q).Some? <==> Finishing(q)
  {
    if q != [] {
      FinishFound(q[1..]);
      if Finishing(q) {
        var i :| 0 <= i < |q| && q[i].content.finish;
        if i > 0 { assert q[1..][i - 1].content.finish; }
      }
      if Finishing(q[1..]) {
        var i :| 0 <= i < |q[1..]| && q[1..][i].content.finish;
        assert q[i + 1].content.finish;
      }
    }
  }

  /** The prompt's own record: delivered once that is known, unprocessed when a cancellation came first. */
  ghost predicate PromptStored(s: Occurrence, input: Input, input': Input, outcome: Outcome, delivered: bool) {
    input' == input.(disposition :=
      if s.published then input.disposition
      else if outcome.Succeeded? || delivered then Delivered
      else if outcome.canceled then Unprocessed
      else input.disposition)
  }

  /** The whole effect of a completion. Without the first write nothing is stored; without the second only the prompt's own
  record is; the consumer goes on only where the occurrence is closed and still open to the human. */
  lemma CompletionExactly(run: seq<Label>, at: Address, n: Node, id: Id, outcome: Outcome, delivered: bool,
                          recorded: bool, committed: bool)
    requires IsRun(INIT, run) && Completes(After(INIT, run), at, n, id)
    requires Enabled(After(INIT, run), Complete(at, outcome, delivered, recorded, committed))
    ensures var w := After(INIT, run);
            var w' := Apply(w, Complete(at, outcome, delivered, recorded, committed));
            var s, q := w.states[n], PendingAt(w, at);
            && n in w'.states && (forall m | m != n :: State(w', m) == State(w, m))
            && w'.inputs.Keys == w.inputs.Keys && (forall i | i in w.inputs && i != id :: w'.inputs[i] == w.inputs[i])
            && (if recorded then PromptStored(s, w.inputs[id], w'.inputs[id], outcome, delivered) else w'.inputs[id] == w.inputs[id])
            && (if recorded && committed then Completed(s, w'.states[n], w.inputs[id], q, outcome, delivered)
                else w'.states[n] == s)
            && (at in w'.loops <==> recorded && committed && w'.states[n].active.None? && w'.states[n].endedBy == Open)
  {
    hide Inv, Queue, Closed, Completed, Enabled;
    Reachable(run);
    CompletionStep(After(INIT, run), at, n, id, outcome, delivered, recorded, committed);
    EnabledComplete(After(INIT, run), at, outcome, delivered, recorded, committed);
  }

  lemma EnabledComplete(w: World, at: Address, outcome: Outcome, delivered: bool, recorded: bool, committed: bool)
    requires Enabled(w, Complete(at, outcome, delivered, recorded, committed))
    ensures Apply(w, Complete(at, outcome, delivered, recorded, committed)) == DoComplete(w, at, outcome, delivered, recorded, committed)
  {
    hide DoComplete;
  }

  lemma CompletionStep(w: World, at: Address, n: Node, id: Id, outcome: Outcome, delivered: bool,
                       recorded: bool, committed: bool)
    requires Inv(w) && Completes(w, at, n, id)
    ensures var w' := DoComplete(w, at, outcome, delivered, recorded, committed);
            var s, q := w.states[n], PendingAt(w, at);
            && n in w'.states && (forall m | m != n :: State(w', m) == State(w, m))
            && w'.inputs.Keys == w.inputs.Keys && (forall i | i in w.inputs && i != id :: w'.inputs[i] == w.inputs[i])
            && (if recorded then PromptStored(s, w.inputs[id], w'.inputs[id], outcome, delivered) else w'.inputs[id] == w.inputs[id])
            && (if recorded && committed then Completed(s, w'.states[n], w.inputs[id], q, outcome, delivered)
                else w'.states[n] == s)
            && (at in w'.loops <==> recorded && committed && w'.states[n].active.None? && w'.states[n].endedBy == Open)
  {
    hide Inv, Queue, Closed, Completed, ActiveOk, Published, Conclude, PromptStored;
    ActiveFacts(w, n, id);
    ActiveIsConsumed(w, n, id);
    var s, q, input := w.states[n], PendingAt(w, at), w.inputs[id];
    var d := PromptFate(s, input, outcome, delivered);
    QueueIgnores(w, input, d, at, w.order);
    ClosedExactly(s, input, q, outcome, delivered);
    FateStored(s, input, outcome, delivered);
    var s1 := Published(s, input, Publishes(s, outcome, delivered));
    PublishedFacts(s, input, outcome, delivered);
    var (r, commits) := Closed(s1, q, outcome);
    assert Closed(s1, q, outcome) == (r, commits);
    ConcludedStates(Put(w, input, d), n, r, commits, committed);
    ConcludedLoops(Put(w, input, d), n, r, commits, committed);
    ClosedEnds(s, s1, q, outcome, delivered);
  }

  lemma FateStored(s: Occurrence, input: Input, outcome: Outcome, delivered: bool)
    ensures PromptStored(s, input, input.(disposition := PromptFate(s, input, outcome, delivered)), outcome, delivered)
  {
  }

  lemma ClosedEnds(s: Occurrence, s1: Occurrence, q: seq<Input>, outcome: Outcome, delivered: bool)
    requires s.active.Some? && s1.active == s.active
    ensures var (r, commits) := Closed(s1, q, outcome);
            commits ==> (r.active.None? <==> !r.unresolved)
  {
    hide Settle;
    SettleKeepsActive(s1, q);
  }

  lemma ConcludedStates(w: World, n: Node, s: Occurrence, commits: bool, committed: bool)
    ensures var w' := Conclude(w, n.address, n, (s, commits), committed);
            w'.inputs == w.inputs && w'.states == (if commits && committed then w.states[n := s] else w.states)
  {
  }

  lemma ConcludedLoops(w: World, n: Node, s: Occurrence, commits: bool, committed: bool)
    ensures n.address in Conclude(w, n.address, n, (s, commits), committed).loops <==>
              commits && committed && !s.unresolved && s.endedBy == Open
  {
  }

  // ---- replies ----

  /** What the agent said in a transcript, in order. */
  function Replies(messages: seq<Entry>): seq<string> {
    if messages == [] then []
    else
      var last := messages[|messages| - 1];
      Replies(messages[..|messages| - 1]) + (if last.Assistant? then [last.text] else [])
  }

  lemma {:induction false} RepliesJoin(a: seq<Entry>, b: seq<Entry>)
    ensures Replies(a + b) == Replies(a) + Replies(b)
  {
    if b == [] {
      assert a + b == a;
    } else {
      assert (a + b)[..|a + b| - 1] == a + b[..|b| - 1];
      RepliesJoin(a, b[..|b| - 1]);
    }
  }

  lemma {:induction false} LandingsReplyNone(q: seq<Input>)
    ensures Replies(Landings(q)) == []
  {
    if q != [] {
      LandingsReplyNone(q[1..]);
      OneReply(if Shows(q[0]) then [User(q[0].id, q[0].content.message)] else []);
      RepliesJoin(if Shows(q[0]) then [User(q[0].id, q[0].content.message)] else [], Landings(q[1..]));
    }
  }

  lemma OneReply(messages: seq<Entry>)
    requires |messages| <= 1
    ensures Replies(messages) == if messages != [] && messages[0].Assistant? then [messages[0].text] else []
  {
    if messages != [] { assert messages[..|messages| - 1] == []; }
  }

  lemma ShownReplies(messages: seq<Entry>, prompt: seq<Entry>, q: seq<Input>, reply: seq<Entry>)
    requires |prompt| <= 1 && |reply| <= 1 && (prompt != [] ==> prompt[0].User?) && (reply != [] ==> reply[0].Assistant?)
    ensures Replies(messages + prompt + Landings(q)) == Replies(messages)
    ensures Replies(messages + prompt + Landings(q) + reply) == Replies(messages) + (if reply != [] then [reply[0].text] else [])
  {
    OneReply(prompt);
    OneReply(reply);
    LandingsReplyNone(q);
    RepliesJoin(messages, prompt);
    RepliesJoin(messages + prompt, Landings(q));
    RepliesJoin(messages + prompt + Landings(q), reply);
  }

  /** The step ends a turn of this occurrence with this reply, and takes its prompt off. */
  ghost predicate RepliesTo(w: World, l: Label, n: Node, text: string)
    requires Enabled(w, l)
  {
    && l.Complete? && l.outcome == Succeeded(Chat(text)) && w.loops[l.at].node == n
    && State(w, n).active.Some? && State(Apply(w, l), n).active.None?
  }

  lemma OthersKeepMessages(w: World, l: Label, n: Node)
    requires Enabled(w, l) && !l.Complete?
    ensures State(Apply(w, l), n).messages == State(w, n).messages
  {
    hide PendingAt, CanReturn, Follow, DoLook, DoAccept, DoClose;
    if l.Look? { LookKeepsMessages(w, l.at, l.configured, l.committed, n); }
    else if l.Accept? { AcceptStates(w, l.id, l.content, l.terminal, l.turnMatches); }
    else if l.CloseInputs? { CloseStates(w, l.scope, l.count); }
  }

  lemma AcceptStates(w: World, id: Id, c: Content, terminal: bool, turnMatches: bool)
    ensures DoAccept(w, id, c, terminal, turnMatches).states == w.states
  {
  }

  lemma CloseStates(w: World, scope: string, count: nat)
    ensures DoClose(w, scope, count).states == w.states
  {
  }

  lemma LookKeepsMessages(w: World, at: Address, configured: bool, committed: bool, n: Node)
    requires at in w.loops
    ensures State(DoLook(w, at, configured, committed), n).messages == State(w, n).messages
  {
    hide PendingAt, DoTake, FirstFinish;
    var m, q := w.loops[at].node, PendingAt(w, at);
    if State(w, m).active.Some? && State(w, m).active.value in w.inputs {
      TakeKeepsMessages(w, m, w.inputs[State(w, m).active.value], configured, committed, n);
    }
    if q != [] { TakeKeepsMessages(w, m, q[0], configured, committed, n); }
  }

  lemma TakeKeepsMessages(w: World, m: Node, input: Input, configured: bool, committed: bool, n: Node)
    ensures State(DoTake(w, m, input, configured, committed), n).messages == State(w, n).messages
  {
    hide Begun, Dispatch;
    BegunKeepsMessages(State(w, m), input.id);
    DispatchStates(At(Commit(w, m, Begun(State(w, m), input.id)), m.address, m, Turn([])), m, input.id);
  }

  lemma BegunKeepsMessages(s: Occurrence, id: Id)
    ensures Begun(s, id).messages == s.messages
  {
  }

  lemma DispatchStates(w: World, n: Node, id: Id)
    ensures Dispatch(w, n, id).states == w.states
  {
  }

  /** The consumer at an address in a turn, seen from its completion. */
  lemma CompletesAt(w: World, l: Label)
    requires Inv(w) && Enabled(w, l) && l.Complete?
    ensures w.loops[l.at].node in w.states && State(w, w.loops[l.at].node).active.Some?
    ensures Completes(w, l.at, w.loops[l.at].node, State(w, w.loops[l.at].node).active.value)
  {
    hide Inv;
    LoopIsIts(w, l.at);
    ActiveFacts(w, w.loops[l.at].node, State(w, w.loops[l.at].node).active.value);
  }

  lemma CompletedReplies(s: Occurrence, s': Occurrence, input: Input, q: seq<Input>, outcome: Outcome, delivered: bool)
    requires Completed(s, s', input, q, outcome, delivered) && s.active.Some?
    ensures Replies(s'.messages) == Replies(s.messages)
              + (if s'.active.None? && outcome.Succeeded? && outcome.decision.Chat? then [outcome.decision.text] else [])
    ensures s'.active.None? && outcome.Succeeded? && outcome.decision.Chat? ==>
              s'.messages != [] && s'.messages[|s'.messages| - 1] == Assistant(outcome.decision.text)
  {
    hide Replies, Landings, Unanswered, HasStop, FirstFinish, Finishing;
    ShownReplies(s.messages, PromptEntry(s, input, outcome, delivered), q, Reply(outcome));
  }

  lemma ReplyStep(w: World, l: Label, n: Node)
    requires Inv(w) && Enabled(w, l)
    ensures forall text | RepliesTo(w, l, n, text) ::
              State(Apply(w, l), n).messages != [] &&
              State(Apply(w, l), n).messages[|State(Apply(w, l), n).messages| - 1] == Assistant(text) &&
              Replies(State(Apply(w, l), n).messages) == Replies(State(w, n).messages) + [text]
    ensures (forall text :: !RepliesTo(w, l, n, text)) ==>
              Replies(State(Apply(w, l), n).messages) == Replies(State(w, n).messages)
  {
    hide Inv, DoComplete, DoLook, Replies, Completed, PendingAt, Closed;
    if l.Complete? {
      var m := w.loops[l.at].node;
      CompletesAt(w, l);
      var id := State(w, m).active.value;
      CompletionStep(w, l.at, m, id, l.outcome, l.delivered, l.recorded, l.committed);
      if n == m {
        if l.recorded && l.committed {
          CompletedReplies(w.states[m], Apply(w, l).states[m], w.inputs[id], PendingAt(w, l.at), l.outcome, l.delivered);
        }
        if l.outcome.Succeeded? && l.outcome.decision.Chat? {
          assert State(Apply(w, l), n).active.None? ==> RepliesTo(w, l, n, l.outcome.decision.text);
        }
      }
    } else {
      OthersKeepMessages(w, l, n);
    }
  }

  /** A chat reply that ends a turn is the last entry of the occurrence's transcript, and nothing but such a reply ever adds
  an entry of the agent's to a transcript. */
  lemma RepliesExactly(run: seq<Label>, l: Label, n: Node)
    requires IsRun(INIT, run) && Enabled(After(INIT, run), l)
    ensures var w, w' := After(INIT, run), Apply(After(INIT, run), l);
            forall text | RepliesTo(w, l, n, text) ::
              && State(w', n).messages != [] && State(w', n).messages[|State(w', n).messages| - 1] == Assistant(text)
              && Replies(State(w', n).messages) == Replies(State(w, n).messages) + [text]
    ensures var w, w' := After(INIT, run), Apply(After(INIT, run), l);
            (forall text :: !RepliesTo(w, l, n, text)) ==> Replies(State(w', n).messages) == Replies(State(w, n).messages)
  {
    hide Inv, Enabled, Apply, RepliesTo, Replies;
    Reachable(run);
    ReplyStep(After(INIT, run), l, n);
  }

  // ---- what the human said ----

  /** Every entry of the human's is an accepted message, word for word. */
  ghost predicate Spoken(w: World, messages: seq<Entry>) {
    forall e | e in messages && e.User? :: e.id in w.inputs && e.text == w.inputs[e.id].content.message
  }

  ghost predicate AllSpoken(w: World) { forall n | n in w.states :: Spoken(w, w.states[n].messages) }

  lemma {:induction false} LandingsSpoken(w: World, q: seq<Input>)
    requires forall i | 0 <= i < |q| :: q[i].id in w.inputs && w.inputs[q[i].id].content == q[i].content
    ensures Spoken(w, Landings(q))
  {
    if q != [] {
      assert forall i | 0 <= i < |q[1..]| :: q[1..][i] == q[i + 1];
      LandingsSpoken(w, q[1..]);
    }
  }

  lemma SpokenJoin(w: World, a: seq<Entry>, b: seq<Entry>)
    requires Spoken(w, a) && Spoken(w, b)
    ensures Spoken(w, a + b)
  {
  }

  lemma SpokenLater(w: World, w': World, messages: seq<Entry>)
    requires Spoken(w, messages) && ContentsStay(w, w')
    ensures Spoken(w', messages)
  {
  }

  lemma CompletedSpoken(w: World, s: Occurrence, s': Occurrence, input: Input, q: seq<Input>, outcome: Outcome, delivered: bool)
    requires Completed(s, s', input, q, outcome, delivered) && Spoken(w, s.messages)
    requires input.id in w.inputs && w.inputs[input.id].content == input.content
    requires forall i | 0 <= i < |q| :: q[i].id in w.inputs && w.inputs[q[i].id].content == q[i].content
    ensures Spoken(w, s'.messages)
  {
    hide Spoken, Landings, Unanswered, HasStop, FirstFinish, Finishing, StopIsEnough;
    LandingsSpoken(w, q);
    PartsSpoken(w, s, input, outcome, delivered);
    SpokenJoin(w, s.messages, PromptEntry(s, input, outcome, delivered));
    SpokenJoin(w, s.messages + PromptEntry(s, input, outcome, delivered), Landings(q));
    SpokenJoin(w, s.messages + PromptEntry(s, input, outcome, delivered) + Landings(q), Reply(outcome));
  }

  lemma PartsSpoken(w: World, s: Occurrence, input: Input, outcome: Outcome, delivered: bool)
    requires input.id in w.inputs && w.inputs[input.id].content == input.content
    ensures Spoken(w, PromptEntry(s, input, outcome, delivered)) && Spoken(w, Reply(outcome))
  {
  }

  lemma SpokenStep(w: World, l: Label)
    requires Inv(w) && Enabled(w, l) && AllSpoken(w)
    ensures AllSpoken(Apply(w, l))
  {
    hide Inv, Enabled, Apply, Spoken;
    var w' := Apply(w, l);
    StepLater(w, l);
    forall n | n in w'.states ensures Spoken(w', w'.states[n].messages) {
      EntriesSpoken(w, l, n);
      SpokenLater(w, w', w'.states[n].messages);
    }
  }

  lemma EntriesSpoken(w: World, l: Label, n: Node)
    requires Inv(w) && Enabled(w, l) && AllSpoken(w) && n in Apply(w, l).states
    ensures Spoken(w, Apply(w, l).states[n].messages)
  {
    hide Inv, DoComplete, DoLook, Spoken, Completed, PendingAt, Closed;
    NewSpoken(w);
    if l.Complete? {
      var m := w.loops[l.at].node;
      CompletesAt(w, l);
      var id := State(w, m).active.value;
      CompletionStep(w, l.at, m, id, l.outcome, l.delivered, l.recorded, l.committed);
      QueueStored(w, l.at);
      if n == m && l.recorded && l.committed {
        CompletedSpoken(w, w.states[m], Apply(w, l).states[m], w.inputs[id], PendingAt(w, l.at), l.outcome, l.delivered);
      }
      assert State(Apply(w, l), n) == Apply(w, l).states[n];
    } else {
      OthersKeepMessages(w, l, n);
    }
  }

  lemma NewSpoken(w: World)
    ensures Spoken(w, NEW.messages)
  {
  }

  lemma QueueStored(w: World, at: Address)
    requires Inv(w)
    ensures forall i | 0 <= i < |PendingAt(w, at)| ::
              PendingAt(w, at)[i].id in w.inputs && w.inputs[PendingAt(w, at)[i].id].content == PendingAt(w, at)[i].content
  {
    SnapshotOk(w, Node(at, 0));
  }

  lemma {:induction false} SpokenFrom(w: World, run: seq<Label>)
    requires Inv(w) && IsRun(w, run) && AllSpoken(w)
    ensures AllSpoken(After(w, run))
    decreases run
  {
    hide Inv, Enabled, Apply, AllSpoken;
    if run != [] {
      SpokenStep(w, run[0]);
      StepKeeps(w, run[0]);
      SpokenFrom(Apply(w, run[0]), run[1..]);
    }
  }

  /** Over every run, each entry of the human's in a transcript is the message that was accepted under its id. */
  lemma TranscriptsAreSpoken(run: seq<Label>, n: Node, e: Entry)
    requires IsRun(INIT, run) && n in After(INIT, run).states && e in After(INIT, run).states[n].messages && e.User?
    ensures e.id in After(INIT, run).inputs && e.text == After(INIT, run).inputs[e.id].content.message
  {
    hide Inv;
    InitOk();
    SpokenFrom(INIT, run);
    assert Spoken(After(INIT, run), After(INIT, run).states[n].messages);
  }
}
