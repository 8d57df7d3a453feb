/** What each step of the interaction protocol does, said of the inputs, the queue and the answers as they are
(interactive.go:83-245, 393-567, session.go:280-316). */
module InteractionSteps {
  import opened Wrappers
  import opened Interaction
  import opened InteractionProofs
  import opened InteractionTheorems
  import opened InteractionProcess
  import opened InteractionPrompts

  // ---- acceptance ----

  /** Somebody else's conversation at the address: open, and not waiting with nothing left to do. */
  ghost predicate StillBusy(w: World, at: Address) {
    exists n | n in w.states.Keys + w.entered :: n.address == at && State(w, n).endedBy == Open
      && !(State(w, n).waiting && PendingAt(w, at) == [])
  }

  ghost predicate FinishTaken(w: World, at: Address) {
    exists f | f in w.inputs :: w.inputs[f].content.address == at && w.inputs[f].content.finish
  }

  /** A message is accepted once. The same again is answered as a duplicate, another under its id as a conflict; a new one
  needs a live consumer, open scopes, an address without a finish, and for a model change a conversation at rest. */
  lemma AcceptExactly(w: World, id: Id, c: Content, terminal: bool, turnMatches: bool)
    ensures var v, w' := Judge(w, id, c, terminal, turnMatches), DoAccept(w, id, c, terminal, turnMatches);
            && (v.Duplicate? <==> id != "" && id in w.inputs && w.inputs[id].content == c)
            && (v.Conflict? <==> id != "" && id in w.inputs && w.inputs[id].content != c)
            && (v.Accepted? <==>
                  && id != "" && id !in w.inputs && !terminal && turnMatches && c.address in w.loops
                  && "" !in w.ended && c.address.owner !in w.ended && !FinishTaken(w, c.address)
                  && (c.configure ==> !StillBusy(w, c.address)))
            && w' == (if v.Accepted? then w.(inputs := w.inputs[id := Input(id, c, Pending)], order := w.order + [id]) else w)
  {
    hide PendingAt;
  }

  /** Once accepted, a message stays accepted: whatever happens next, sending it again is a duplicate and sending another
  under its id a conflict. */
  lemma AcceptedForGood(run: seq<Label>, more: seq<Label>, id: Id, c: Content, terminal: bool, turnMatches: bool)
    requires IsRun(INIT, run) && id in After(INIT, run).inputs && id != "" && IsRun(After(INIT, run), more)
    ensures var v := Judge(After(After(INIT, run), more), id, c, terminal, turnMatches);
            v == if After(INIT, run).inputs[id].content == c then Duplicate else Conflict
  {
    hide Inv, Judge;
    Reachable(run);
    RunLater(After(INIT, run), more);
    AcceptExactly(After(After(INIT, run), more), id, c, terminal, turnMatches);
    ContentKept(After(INIT, run), After(After(INIT, run), more), id);
  }

  lemma ContentKept(w: World, w': World, id: Id)
    requires Later(w, w') && id in w.inputs
    ensures id in w'.inputs && w'.inputs[id].content == w.inputs[id].content
  {
  }

  // ---- the queue and the steers ----

  /** The queue holds, in the order of acceptance, exactly the inputs of the address that were not closed unprocessed and
  that no occurrence consumed. */
  lemma QueueExactly(w: World, at: Address)
    requires Inv(w)
    ensures var q := PendingAt(w, at);
            && (forall i | 0 <= i < |q| :: q[i].id in w.inputs && q[i] == w.inputs[q[i].id])
            && (forall id :: (exists i :: 0 <= i < |q| && q[i].id == id) <==>
                  && id in w.inputs && w.inputs[id].content.address == at && w.inputs[id].disposition != Unprocessed
                  && !exists n :: n in w.states && id in w.states[n].consumed)
            && (forall i, j | 0 <= i < j < |q| :: InOrder(w.order, q[i].id, q[j].id))
  {
    hide Inv, PendingAt, InOrder;
    SnapshotOk(w, Node(at, 0));
    QueueInOrder(w, at);
    var q := PendingAt(w, at);
    forall id ensures (exists i :: 0 <= i < |q| && q[i].id == id) <==>
      && id in w.inputs && w.inputs[id].content.address == at && w.inputs[id].disposition != Unprocessed
      && !exists n :: n in w.states && id in w.states[n].consumed
    {
      ConsumedExactly(w, id);
      OrderHasInputs(w, id);
      if id in w.inputs && IsPending(w, at, id) {
        assert w.inputs[id] in q;
        var i :| 0 <= i < |q| && q[i] == w.inputs[id];
        assert q[i].id == id;
      }
    }
  }

  lemma ConsumedExactly(w: World, id: Id)
    ensures Consumed(w.states, id) <==> exists n :: n in w.states && id in w.states[n].consumed
  {
    if n :| n in w.states && id in w.states[n].consumed { assert ConsumedBy(w.states, n, id); }
  }

  lemma OrderHasInputs(w: World, id: Id)
    requires Inv(w)
    ensures id in w.order <==> id in w.inputs
    ensures id in w.inputs ==> w.inputs[id].id == id
  {
  }

  ghost predicate InOrder(order: seq<Id>, a: Id, b: Id) { exists i, j :: 0 <= i < j < |order| && order[i] == a && order[j] == b }

  lemma QueueInOrder(w: World, at: Address)
    requires Inv(w)
    ensures var q := PendingAt(w, at); forall i, j | 0 <= i < j < |q| :: InOrder(w.order, q[i].id, q[j].id)
  {
    hide Lists, Turns, Actives, Loops, Sends, Finishes, Transcripts;
    OrderedQueue(w, at, w.order);
    var q := PendingAt(w, at);
    forall i, j | 0 <= i < j < |q| ensures InOrder(w.order, q[i].id, q[j].id) {
      assert q == Queue(w, at, w.order);
    }
  }

  lemma InOrderNext(ids: seq<Id>, a: Id, b: Id)
    requires ids != []
    ensures InOrder(ids[1..], a, b) ==> InOrder(ids, a, b)
    ensures a == ids[0] && b in ids[1..] ==> InOrder(ids, a, b)
  {
    var rest := ids[1..];
    if InOrder(rest, a, b) {
      var i, j :| 0 <= i < j < |rest| && rest[i] == a && rest[j] == b;
      assert ids[i + 1] == a && ids[j + 1] == b;
    }
    if a == ids[0] && b in rest {
      var j :| 0 <= j < |rest| && rest[j] == b;
      assert ids[j + 1] == b;
    }
  }

  lemma {:induction false} OrderedQueue(w: World, at: Address, ids: seq<Id>)
    requires forall id | id in w.inputs :: w.inputs[id].id == id
    ensures var q := Queue(w, at, ids);
            && (forall i | 0 <= i < |q| :: q[i].id in ids)
            && (forall i, j | 0 <= i < j < |q| :: InOrder(ids, q[i].id, q[j].id))
    decreases ids
  {
    hide InOrder, IsPending;
    if ids != [] {
      var tail, q := Queue(w, at, ids[1..]), Queue(w, at, ids);
      OrderedQueue(w, at, ids[1..]);
      QueueUnfolds(w, at, ids);
      assert ids == [ids[0]] + ids[1..];
      forall i, j | 0 <= i < j < |q| ensures InOrder(ids, q[i].id, q[j].id) { InOrderNext(ids, q[i].id, q[j].id); }
    }
  }

  lemma QueueUnfolds(w: World, at: Address, ids: seq<Id>)
    requires ids != [] && forall id | id in w.inputs :: w.inputs[id].id == id
    ensures var tail, q := Queue(w, at, ids[1..]), Queue(w, at, ids);
            q == tail || (|q| == |tail| + 1 && q[0].id == ids[0] && forall i | 0 < i < |q| :: q[i] == tail[i - 1])
  {
  }

  /** A queued message is steered into the running turn if the snapshot has it plain and pending, and stored as inflight
  before that; anything else is passed over. A wakeup looks at the whole queue. */
  lemma SteerExactly(w: World, at: Address, recorded: bool)
    requires Enabled(w, Steer(at, recorded))
    ensures var n, e, rest := w.loops[at].node, w.loops[at].phase.rest[0], w.loops[at].phase.rest[1..];
            var w' := Apply(w, Steer(at, recorded));
            if !(e.disposition.Pending? && !e.content.finish && !e.content.stop && !e.content.configure)
            then w' == w.(loops := w.loops[at := Loop(n, Turn(rest))])
            else if recorded
            then w' == w.(loops := w.loops[at := Loop(n, Sending(e, rest))], trace := w.trace + [SteerSent(n, e.id)],
                          inputs := w.inputs[e.id := e.(disposition := Inflight)])
            else w' == w.(loops := w.loops - {at})
  {
  }

  lemma WakeExactly(w: World, at: Address)
    requires Enabled(w, Wake(at))
    ensures Apply(w, Wake(at)) == w.(loops := w.loops[at := Loop(w.loops[at].node, Turn(PendingAt(w, at)))])
  {
    hide PendingAt;
  }

  lemma AnswerExactly(w: World, at: Address, landed: bool, failed: bool, recorded: bool)
    requires Enabled(w, Answer(at, landed, failed, recorded))
    ensures var n, e, rest := w.loops[at].node, w.loops[at].phase.input, w.loops[at].phase.rest;
            var w' := Apply(w, Answer(at, landed, failed, recorded));
            if !recorded then w' == w.(loops := w.loops - {at})
            else
              && w'.loops == w.loops[at := Loop(n, Turn(rest))] && w'.states == w.states && w'.order == w.order
              && w'.inputs == w.inputs[e.id := e.(disposition := if failed then Uncertain else if landed then Delivered else Pending)]
              && w'.trace == w.trace + [if failed then Doubtful(n, e.id) else if landed then Landed(n, e.id) else Dropped(n, e.id)]
  {
  }

  // ---- closing ----

  /** The owner is the scope or below it; the empty scope is the whole run. */
  ghost predicate Below(scope: string, owner: string) {
    scope == "" || owner == scope || exists rest :: owner == scope + "/" + rest
  }

  lemma InScopeExactly(scope: string, owner: string)
    ensures InScope(scope, owner) <==> Below(scope, owner)
  {
    if scope + "/" <= owner { assert owner == scope + "/" + owner[|scope| + 1..]; }
  }

  /** Where every write is accepted, closing a scope makes exactly the unconsumed inputs below it unprocessed, but those
  whose delivery is uncertain, and changes nothing else. */
  lemma CloseExactly(w: World, scope: string, count: nat)
    requires Inv(w) && count >= |w.order|
    ensures var w' := Apply(w, CloseInputs(scope, count));
            && w' == w.(inputs := w'.inputs) && w'.inputs.Keys == w.inputs.Keys
            && forall id | id in w.inputs :: w'.inputs[id] ==
                 if !Consumed(w.states, id) && w.inputs[id].disposition != Uncertain && Below(scope, w.inputs[id].content.address.owner)
                 then w.inputs[id].(disposition := Unprocessed) else w.inputs[id]
  {
    hide Lists, Turns, Actives, Loops, Sends, Finishes, Transcripts, Consumed;
    forall owner: string ensures InScope(scope, owner) <==> Below(scope, owner) { InScopeExactly(scope, owner); }
    assert FirstOf(w.order, count) == w.order by { assert w.order[..|w.order|] == w.order; }
  }

  // ---- the top of the loop ----

  /** With no turn running: a finish ends an occurrence that has no prompt; a prompt is taken up again; else the head of the
  queue is taken; and where nothing is left the occurrence waits. */
  lemma LookExactly(w: World, at: Address, configured: bool, committed: bool)
    requires Inv(w) && Enabled(w, Look(at, configured, committed)) && committed
    ensures var n, q := w.loops[at].node, PendingAt(w, at);
            var s, w' := State(w, n), Apply(w, Look(at, configured, committed));
            var s' := State(w', n);
            && (s.active.None? && (exists i :: 0 <= i < |q| && q[i].content.finish) ==>
                  && s'.endedBy == ByHuman && !s'.waiting && at !in w'.loops
                  && |s'.consumed| == |s.consumed| + 1 && s.consumed <= s'.consumed
                  && (exists i :: 0 <= i < |q| && q[i].content.finish && q[i].id == s'.consumed[|s.consumed|]
                                  && forall j | 0 <= j < i :: !q[j].content.finish))
            && (s.active.Some? ==> s' == s.(waiting := false) && w'.loops == w.loops[at := Loop(n, Turn([]))]
                                   && w'.trace == w.trace + [Prompted(n, s.active.value)])
            && (s.active.None? && q == [] ==> s' == s.(waiting := true) && w'.loops == w.loops && w'.trace == w.trace)
  {
    hide Inv, PendingAt, DoFinish;
    var n, q := w.loops[at].node, PendingAt(w, at);
    LoopIsIts(w, at);
    FirstFinishExactly(q);
    if State(w, n).active.Some? {
      ActiveFacts(w, n, State(w, n).active.value);
      assert w.loops[at] == Loop(n, Idle);
    } else if FirstFinish(q).Some? {
      FinishExactly(w, n, FirstFinish(q).value.id);
    }
  }

  lemma FinishExactly(w: World, n: Node, id: Id)
    ensures var s, w' := State(w, n), DoFinish(w, n, id, true);
            && State(w', n) == s.(consumed := s.consumed + [id], endedBy := ByHuman, waiting := false)
            && n.address !in w'.loops
  {
  }

  lemma {:induction false} FirstFinishExactly(q: seq<Input>)
    ensures FirstFinish(q).Some? <==> exists i :: 0 <= i < |q| && q[i].content.finish
    ensures FirstFinish(q).Some? ==>
              exists i :: 0 <= i < |q| && q[i] == FirstFinish(q).value && q[i].content.finish && forall j | 0 <= j < i :: !q[j].content.finish
  {
    if q != [] {
      FirstFinishExactly(q[1..]);
      if q[0].content.finish {
        assert q[0] == FirstFinish(q).value;
      } else {
        if FirstFinish(q[1..]).Some? {
          var i :| 0 <= i < |q[1..]| && q[1..][i] == FirstFinish(q[1..]).value && q[1..][i].content.finish
                   && forall j | 0 <= j < i :: !q[1..][j].content.finish;
          assert q[i + 1] == FirstFinish(q).value && forall j | 0 < j < i + 1 :: q[j] == q[1..][j - 1];
        }
        if i :| 0 <= i < |q| && q[i].content.finish { assert q[1..][i - 1].content.finish; }
      }
    }
  }

  /** The head of the queue, where there is no prompt and no finish: a delivery in doubt ends the consumer, a stop or a
  model change is consumed, and any other input becomes the prompt. */
  lemma HeadExactly(w: World, at: Address, configured: bool)
    requires Inv(w) && Enabled(w, Look(at, configured, true)) && State(w, w.loops[at].node).active.None?
    requires PendingAt(w, at) != [] && forall i | 0 <= i < |PendingAt(w, at)| :: !PendingAt(w, at)[i].content.finish
    ensures var n, e := w.loops[at].node, PendingAt(w, at)[0];
            var s, w' := State(w, n), Apply(w, Look(at, configured, true));
            if e.disposition == Uncertain || e.disposition == Inflight then
              State(w', n) == s.(unresolved := true) && at !in w'.loops && w'.trace == w.trace
            else if e.content.configure && !configured then
              State(w', n) == s && at !in w'.loops && w'.trace == w.trace
            else if e.content.configure || e.content.stop then
              State(w', n) == s.(consumed := s.consumed + [e.id]) && w'.loops == w.loops && w'.trace == w.trace
            else
              && State(w', n) == s.(consumed := s.consumed + [e.id], active := Some(e.id), published := false, waiting := false)
              && w'.loops == w.loops[at := Loop(n, Turn([]))] && w'.trace == w.trace + [Prompted(n, e.id)]
  {
    hide Inv, PendingAt;
    LoopIsIts(w, at);
    FirstFinishExactly(PendingAt(w, at));
    assert w.loops[at] == Loop(w.loops[at].node, Idle);
  }

  // ---- the turns of a generation ----

  /** After a turn: a good answer ends the generation with it. An invalid one is asked for again after the first and the
  second, and fails the third time. The provider's session error is tried once more, unless the context is canceled. Any
  other error ends the generation with itself. */
  lemma FollowExactly(g: Gen, a: Answer, canceled: bool)
    ensures a.Said? ==> Follow(g, a, canceled).stage == Over(Succeeded(a.decision))
    ensures a.Erred? && a.invalid ==>
              var g' := Follow(g, a, canceled);
              if g.invalid < 2 then g' == Gen(g.turn + 1, g.invalid + 1, g.failures, Due) else g'.stage == Over(Failed(a.canceled, a.uncertain))
    ensures a.Erred? && !a.invalid && a.provider ==>
              var g' := Follow(g, a, canceled);
              if g.failures == 0 && !canceled then g' == Gen(g.turn + 1, g.invalid, 1, Due) else g'.stage == Over(Failed(a.canceled, a.uncertain))
    ensures a.Erred? && !a.invalid && !a.provider ==> Follow(g, a, canceled).stage == Over(Failed(a.canceled, a.uncertain))
  {
  }

  /** What one `Return` does to the world. */
  lemma ReturnExactly(w: World, at: Address, a: Answer, note: Note, canceled: bool)
    requires Enabled(w, Return(at, a, note, canceled))
    ensures var key, w' := Key(w, at), Apply(w, Return(at, a, note, canceled));
            var turn := (key.0, key.1, w.gens[key].turn);
            && w' == w.(gens := w'.gens, settled := w'.settled)
            && w'.gens.Keys == w.gens.Keys && (forall k | k in w.gens && k != key :: w'.gens[k] == w.gens[k])
            && w'.settled == (if note.Kept? then w.settled[turn := note.answer] else w.settled)
            && (if note.Refused? && Follow(w.gens[key], a, canceled).stage.Due? then w'.gens[key].stage == Over(Failed(false, false))
                else w'.gens[key] == Follow(w.gens[key], a, canceled))
  {
    hide Follow;
  }

  const INVALID_ANSWER := Erred(true, false, false, false)
  const AGAIN_INVALID := Return(HERE, INVALID_ANSWER, Kept(FAILURE), false)
  const SECOND_DUE := Advance(RUNNING, (FIRST, "p"), Gen(2, 1, 0, Due)).(settled := map[(FIRST, "p", 1) := FAILURE])
  const SECOND_ASKED := Emit(Advance(SECOND_DUE, (FIRST, "p"), Gen(2, 1, 0, Running)), Asked(FIRST, "p", 2))
  const THIRD_DUE := Advance(SECOND_ASKED, (FIRST, "p"), Gen(3, 2, 0, Due))
                       .(settled := map[(FIRST, "p", 1) := FAILURE, (FIRST, "p", 2) := FAILURE])

  lemma TwiceInvalid()
    ensures Enabled(RUNNING, AGAIN_INVALID) && Apply(RUNNING, AGAIN_INVALID) == SECOND_DUE
    ensures Enabled(SECOND_DUE, Ask(HERE, false)) && Apply(SECOND_DUE, Ask(HERE, false)) == SECOND_ASKED
    ensures Enabled(SECOND_ASKED, AGAIN_INVALID) && Apply(SECOND_ASKED, AGAIN_INVALID) == THIRD_DUE
    ensures Enabled(THIRD_DUE, Ask(HERE, false))
    ensures Apply(THIRD_DUE, Ask(HERE, false)).trace ==
            [Prompted(FIRST, "p"), Asked(FIRST, "p", 1), Asked(FIRST, "p", 2), Asked(FIRST, "p", 3)]
  {
    hide DoLook, DoComplete, PendingAt;
  }

  /** After two invalid answers one process asks for the same prompt a third time. */
  lemma ThirdTurnIsAsked()
    ensures exists run :: IsRun(INIT, run) && Crash !in run && After(INIT, run).trace ==
              [Prompted(FIRST, "p"), Asked(FIRST, "p", 1), Asked(FIRST, "p", 2), Asked(FIRST, "p", 3)]
  {
    hide Enabled, Apply, IsRun, After;
    var run := RunningRun();
    TwiceInvalid();
    Append(INIT, run, AGAIN_INVALID);
    Append(INIT, run + [AGAIN_INVALID], Ask(HERE, false));
    Append(INIT, run + [AGAIN_INVALID] + [Ask(HERE, false)], AGAIN_INVALID);
    Append(INIT, run + [AGAIN_INVALID] + [Ask(HERE, false)] + [AGAIN_INVALID], Ask(HERE, false));
    assert IsRun(INIT, run + [AGAIN_INVALID] + [Ask(HERE, false)] + [AGAIN_INVALID] + [Ask(HERE, false)]);
  }
}
