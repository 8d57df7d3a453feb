/** The replaying run as the code keeps it (replay.go:12-100, run_recording.go:25-64, 97-169, command.go:185-284):
the map of loaded records, the loops that scan it, and runCommand step by step. */
module ReplayRun {
  import opened Wrappers
  import opened Replay

  /** The records of one node. */
  function Of(facts: seq<Fact>, node: NodeId): seq<Fact> {
    if facts == [] then []
    else Of(facts[..|facts| - 1], node) + (if facts[|facts| - 1].node == node then [facts[|facts| - 1]] else [])
  }

  lemma OfNext(facts: seq<Fact>, f: Fact, node: NodeId)
    ensures Of(facts + [f], node) == Of(facts, node) + (if f.node == node then [f] else [])
  {
    assert (facts + [f])[..|facts|] == facts;
  }

  lemma {:induction false} FirstIntentNext(facts: seq<Fact>, f: Fact, node: NodeId)
    ensures FirstIntent(facts + [f], node) ==
            if FirstIntent(facts, node).Some? then FirstIntent(facts, node) else if f.Intent? && f.node == node then Some(f) else None
  {
    if facts == [] {
      assert [f][1..] == [];
    } else {
      assert (facts + [f])[0] == facts[0] && (facts + [f])[1..] == facts[1..] + [f];
      FirstIntentNext(facts[1..], f, node);
    }
  }

  lemma {:induction false} FirstOutcomeNext(facts: seq<Fact>, f: Fact, node: NodeId)
    ensures FirstOutcome(facts + [f], node) ==
            if FirstOutcome(facts, node).Some? then FirstOutcome(facts, node)
            else if f.Outcome? && f.node == node then Some(f.envelope) else None
  {
    if facts == [] {
      assert [f][1..] == [];
    } else {
      assert (facts + [f])[0] == facts[0] && (facts + [f])[1..] == facts[1..] + [f];
      FirstOutcomeNext(facts[1..], f, node);
    }
  }

  lemma ResolveNext(base: Option<Envelope>, facts: seq<Fact>, f: Fact, node: NodeId)
    ensures var e := Resolve(base, facts, node);
            Resolve(base, facts + [f], node) ==
            if f.Resolved? && f.node == node then Some(Over(if e.Some? then e.value else BLANK, f.envelope)) else e
  {
    assert (facts + [f])[..|facts|] == facts;
  }

  /** A node's own records say all there is to say about it. */
  lemma {:induction false} OwnRecords(facts: seq<Fact>, node: NodeId, base: Option<Envelope>)
    ensures FirstIntent(Of(facts, node), node) == FirstIntent(facts, node)
    ensures FirstOutcome(Of(facts, node), node) == FirstOutcome(facts, node)
    ensures Resolve(base, Of(facts, node), node) == Resolve(base, facts, node)
  {
    if facts != [] {
      var init, last := facts[..|facts| - 1], facts[|facts| - 1];
      OwnRecords(init, node, base);
      assert facts == init + [last];
      FirstIntentNext(init, last, node);
      FirstOutcomeNext(init, last, node);
      if last.node == node {
        FirstIntentNext(Of(init, node), last, node);
        FirstOutcomeNext(Of(init, node), last, node);
        ResolveNext(base, Of(init, node), last, node);
      } else {
        assert Of(facts, node) == Of(init, node);
      }
    }
  }

  lemma OfNothing(node: NodeId)
    ensures Of([], node) == []
  {
  }

  const BATCH: nat := 1000

  // ---- what a call is to do ----

  datatype Asked = Asked(scope: NodeId, name: string, command: string, args: seq<string>, node: NodeId)
  datatype Answers = Answers(committed: bool, started: bool, captured: bool, exit: Envelope, closed: bool, outcome: bool)

  /** An accepted intent is carried out as it was accepted, whatever the call asks for. */
  function Work(w: World, node: NodeId, command: string, args: seq<string>): (string, seq<string>)
    requires w.replay <= |w.journal|
  {
    var intent := FirstIntent(Loaded(w), node);
    if intent.Some? then (intent.value.command, intent.value.args) else (command, args)
  }

  function DispatchOf(w: World, a: Asked): Dispatch
    requires w.replay <= |w.journal|
  {
    var work := Work(w, a.node, a.command, a.args);
    Dispatch(a.node, ActionIdentity(a.scope, a.node), work.0, work.1)
  }

  /** The steps that the answers determine: a recorded result at once, otherwise as far as each answer lets it go. */
  function Script(w: World, a: Asked, x: Answers): seq<Label>
    requires w.replay <= |w.journal|
  {
    var slot := NextSlot(w, a.scope, a.name);
    [Visit(a.scope, a.name, a.command, a.args, a.node)] +
    (if Recorded(Loaded(w), a.node).Some? then []
     else if !x.committed then [Prepare(slot, false)]
     else [Prepare(slot, true), Record(slot, x.started)] +
          (if x.started then (if x.captured then [Send(slot)] else []) + [Exit(slot, x.exit), Commit(slot, x.closed, x.outcome)] else []))
  }

  class Run {
    var journal: seq<Fact>
    var nodes: map<Slot, NodeId>
    var replay: map<NodeId, seq<Fact>>
    var ordinals: map<(NodeId, string), nat>
    /** What the executor was asked to run. */
    var dispatches: seq<Dispatch>
    ghost var w: World

    function Records(node: NodeId): seq<Fact>
      reads this
    {
      if node in replay then replay[node] else []
    }

    ghost predicate Valid()
      reads this
    {
      && w.journal == journal && w.nodes == nodes && w.ordinals == ordinals && w.replay <= |journal|
      && w.dispatches == dispatches
      && (forall n :: Records(n) == Of(Loaded(w), n))
    }

    constructor ()
      ensures Valid() && w == INIT
    {
      journal, nodes, replay, ordinals, dispatches, w := [], map[], map[], map[], [], INIT;
    }

    /** The run is entered again after a crash: nothing survives but the journal and its nodes. */
    method Reload()
      requires Valid()
      modifies this
      ensures Valid() && w == Next(old(w), Reenter)
    {
      LoadReplay();
      ordinals := map[];
      w := Next(w, Reenter);
      assert w.journal[..|w.journal|] == w.journal;
    }

    /** Files one record under its node. */
    method Take(ghost before: seq<Fact>, f: Fact)
      requires forall n :: Records(n) == Of(before, n)
      modifies this`replay
      ensures forall n :: Records(n) == Of(before + [f], n)
    {
      forall n { OfNext(before, f, n); }
      replay := replay[f.node := Records(f.node) + [f]];
    }

    method LoadReplay()
      modifies this`replay
      ensures forall n :: Records(n) == Of(journal, n)
    {
      hide Of;
      replay := map[];
      forall n { OfNothing(n); }
      var cursor := 0;
      assert journal[..0] == [];
      while true
        invariant cursor <= |journal| && forall n :: Records(n) == Of(journal[..cursor], n)
        decreases |journal| - cursor
      {
        var records := journal[cursor..if |journal| - cursor < BATCH then |journal| else cursor + BATCH];
        if |records| == 0 { break; }
        ghost var start := cursor;
        for i := 0 to |records|
          invariant cursor == start + i && forall n :: Records(n) == Of(journal[..cursor], n)
        {
          Take(journal[..cursor], records[i]);
          assert journal[..cursor] + [records[i]] == journal[..cursor + 1];
          cursor := cursor + 1;
        }
      }
      assert journal[..cursor] == journal;
    }

    /** The accepted intent of a node, if its records hold one. */
    method SavedIntent(node: NodeId) returns (intent: Option<Fact>)
      requires Valid()
      ensures intent == FirstIntent(Loaded(w), node)
    {
      OwnRecords(Loaded(w), node, None);
      var records := Records(node);
      for i := 0 to |records|
        invariant FirstIntent(records, node) == FirstIntent(records[i..], node)
      {
        assert records[i..][1..] == records[i + 1..];
        if records[i].Intent? && records[i].node == node { return Some(records[i]); }
      }
      intent := None;
    }

    method SavedOutcome(node: NodeId) returns (e: Option<Envelope>)
      requires Valid()
      ensures e == FirstOutcome(Records(node), node)
    {
      var records := Records(node);
      for i := 0 to |records|
        invariant FirstOutcome(records, node) == FirstOutcome(records[i..], node)
      {
        assert records[i..][1..] == records[i + 1..];
        if records[i].Outcome? && records[i].node == node { return Some(records[i].envelope); }
      }
      e := None;
    }

    /** replay.go:57-92 */
    method OutcomeOf(node: NodeId) returns (e: Option<Envelope>)
      requires Valid()
      ensures e == Recorded(Loaded(w), node)
    {
      var records := Records(node);
      e := SavedOutcome(node);
      ghost var base := e;
      for i := 0 to |records|
        invariant e == Resolve(base, records[..i], node)
      {
        ResolveNext(base, records[..i], records[i], node);
        assert records[..i] + [records[i]] == records[..i + 1];
        if records[i].Resolved? && records[i].node == node {
          e := Some(Over(if e.Some? then e.value else BLANK, records[i].envelope));
        }
      }
      assert records[..|records|] == records;
      OwnRecords(Loaded(w), node, base);
      if e.Some? && e.value.unresolved { e := None; }
    }

    /** The node of a call, and what is recorded of it (command.go:186-230). */
    method VisitNode(scope: NodeId, name: string, command: string, args: seq<string>, unused: NodeId)
      returns (slot: Slot, node: NodeId, saved: Option<Envelope>)
      requires Valid() && unused !in nodes.Values
      modifies this
      ensures Valid() && slot == NextSlot(old(w), scope, name)
      ensures Enabled(old(w), Visit(scope, name, command, args, node))
      ensures w == DoVisit(old(w), scope, name, command, args, node) && saved == Recorded(Loaded(old(w)), node)
      ensures node == if slot in old(nodes) then old(nodes)[slot] else unused
    {
      hide Of;
      slot := Slot(scope, name, if (scope, name) in ordinals then ordinals[(scope, name)] + 1 else 1);
      node := if slot in nodes then nodes[slot] else unused;
      saved := OutcomeOf(node);
      Visited(w, scope, name, command, args, node);
      ordinals := ordinals[(scope, name) := slot.ordinal];
      nodes := nodes[slot := node];
      w := DoVisit(w, scope, name, command, args, node);
    }

    /** Commits the intent, unless one was accepted before; refuses once anything could not be recorded
    (run_recording.go:97-119). */
    method PrepareAction(scope: NodeId, slot: Slot, node: NodeId, command: string, args: seq<string>, committed: bool)
      returns (ok: bool)
      requires Valid() && slot in w.calls && w.calls[slot].step.Preparing?
      requires w.calls[slot].node == node && w.calls[slot].scope == scope
      requires FirstIntent(Loaded(w), node).None? ==> w.calls[slot].command == command && w.calls[slot].args == args
      modifies this`journal, this`w
      ensures Valid() && w == Next(old(w), Prepare(slot, committed))
      ensures ok == committed
      ensures journal == old(journal) + (if committed && FirstIntent(Loaded(old(w)), node).None?
        then [Fact.Intent(node, command, args, ActionIdentity(scope, node)), Binding(node, ActionIdentity(scope, node))] else [])
    {
      ok := committed;
      if !committed {
        w := Next(w, Prepare(slot, committed));
        return;
      }
      var intent := SavedIntent(node);
      if intent.None? {
        var identity := ActionIdentity(scope, node);
        var facts := [Fact.Intent(node, command, args, identity), Binding(node, identity)];
        Appended(journal, facts, w.replay);
        journal := journal + facts;
      }
      ghost var loaded := Loaded(w);
      w := Next(w, Prepare(slot, committed));
      assert Loaded(w) == loaded;
    }

    method CommandOutcome(slot: Slot, node: NodeId, exit: Envelope, closed: bool, committed: bool)
      requires Valid() && At(w, slot, Done(exit)) && w.calls[slot].node == node
      modifies this`journal, this`w
      ensures Valid() && w == Next(old(w), Commit(slot, closed, committed))
    {
      hide Of;
      ghost var loaded := Loaded(w);
      if !closed && committed {
        Appended(journal, [Outcome(node, exit)], w.replay);
        journal := journal + [Outcome(node, exit)];
      }
      w := Next(w, Commit(slot, closed, committed));
      assert Loaded(w) == loaded;
    }

    /** The accepted intent's own command, if there is one (command.go:198-209). */
    method Accepted(node: NodeId, command: string, args: seq<string>) returns (work: (string, seq<string>))
      requires Valid()
      ensures work == Work(w, node, command, args)
    {
      var intent := SavedIntent(node);
      work := if intent.Some? then (intent.value.command, intent.value.args) else (command, args);
    }

    /** One call, with what the world answers at each step: whether the intent was committed, the start recorded, the
    capture files opened, what the command ended with, whether the run was closed by then, and whether the outcome was
    committed. The labels are the steps of the machine that those answers determine, and no others. */
    method RunCommand(scope: NodeId, name: string, command: string, args: seq<string>, unused: NodeId, committed: bool,
                      started: bool, captured: bool, exit: Envelope, closed: bool, outcome: bool)
      returns (node: NodeId, result: Envelope, ghost labels: seq<Label>)
      requires Valid() && unused !in nodes.Values && !exit.unresolved
      modifies this
      ensures Valid() && IsRun(old(w), labels) && w == After(old(w), labels)
      ensures var slot := NextSlot(old(w), scope, name); node == if slot in old(nodes) then old(nodes)[slot] else unused
      ensures labels == Script(old(w), Asked(scope, name, command, args, node),
                               Answers(committed, started, captured, exit, closed, outcome))
      ensures var saved := Recorded(Loaded(old(w)), node);
              && result == (if saved.Some? then saved.value else if committed && started then exit else FAILED)
              && w.answers == old(w).answers +
                   [Return(node, result, saved.Some? || (committed && started && !closed && outcome))]
              && dispatches == old(dispatches) +
                   (if saved.None? && committed && started && captured
                    then [DispatchOf(old(w), Asked(scope, name, command, args, node))] else [])
      ensures Recorded(Loaded(old(w)), node).None? && committed && started && captured ==>
                && |dispatches| == |old(dispatches)| + 1
                && var d := dispatches[|old(dispatches)|];
                   && d.node == node && d.identity == Identity(scope, node, "command_" + node)
                   && (!HasIntent(Loaded(old(w)), node) ==> d.command == command && d.args == args)
                   && (HasIntent(Loaded(old(w)), node) ==>
                         exists f :: f in Loaded(old(w)) && f.Intent? && f.node == node && f.command == d.command && f.args == d.args)
    {
      hide Valid, Next, DoVisit, IsRun, After, Recorded, HasIntent, ActionIdentity, Loaded, FirstIntent;
      ghost var w0 := w;
      SameDispatches();
      var slot, saved;
      slot, node, saved := VisitNode(scope, name, command, args, unused);
      labels := [Visit(scope, name, command, args, node)];
      Step1(w0, labels[0]);
      Visited(w0, scope, name, command, args, node);
      SameDispatches();
      WorkExactly(w0, scope, name, command, args, node);
      if saved.Some? { return node, saved.value, labels; }
      var work := Accepted(node, command, args);
      PreparedOr(w, slot, node, committed);
      labels := StepThen(w0, labels, Prepare(slot, committed));
      var ok := PrepareAction(scope, slot, node, work.0, work.1, committed);
      SameDispatches();
      if !ok { return node, FAILED, labels; }
      result, labels := Execute(w0, labels, scope, slot, node, work.0, work.1, started, captured, exit, closed, outcome);
    }

    lemma SameDispatches()
      requires Valid()
      ensures dispatches == w.dispatches && w.replay <= |w.journal|
    {
    }

    /** From the committed intent on (command.go:235-283). */
    method Execute(ghost w0: World, ghost before: seq<Label>, scope: NodeId, slot: Slot, node: NodeId, command: string,
                   args: seq<string>, started: bool, captured: bool, exit: Envelope, closed: bool, outcome: bool)
      returns (result: Envelope, ghost labels: seq<Label>)
      requires Valid() && IsRun(w0, before) && w == After(w0, before)
      requires w.replay <= |w.journal| && At(w, slot, Prepared) && !exit.unresolved
      requires w.calls[slot] == Call(scope, node, command, args, Prepared)
      modifies this`journal, this`dispatches, this`w
      ensures Valid() && IsRun(w0, labels) && w == After(w0, labels)
      ensures labels == before + [Record(slot, started)] +
                (if started then (if captured then [Send(slot)] else []) + [Exit(slot, exit), Commit(slot, closed, outcome)] else [])
      ensures result == (if started then exit else FAILED)
      ensures w.answers == old(w).answers + [Return(node, result, started && !closed && outcome)]
      ensures dispatches == old(dispatches) +
                (if started && captured then [Dispatch(node, ActionIdentity(scope, node), command, args)] else [])
    {
      hide Valid, Next, IsRun, After;
      Recording(w, slot, node, started);
      labels := StepThen(w0, before, Record(slot, started));
      Did(Record(slot, started));
      if !started { return FAILED, labels; }
      if captured {
        Sending(w, slot, node);
        labels := StepThen(w0, labels, Send(slot));
        SendCommand(slot, scope, node, command, args);
      }
      Exiting(w, slot, node, exit);
      labels := StepThen(w0, labels, Exit(slot, exit));
      Did(Exit(slot, exit));
      Committing(w, slot, node, closed, outcome);
      labels := StepThen(w0, labels, Commit(slot, closed, outcome));
      CommandOutcome(slot, node, exit, closed, outcome);
      result := exit;
    }

    method SendCommand(ghost slot: Slot, scope: NodeId, node: NodeId, command: string, args: seq<string>)
      requires Valid() && At(w, slot, Started) && Enabled(w, Send(slot))
      requires w.calls[slot] == Call(scope, node, command, args, Started)
      modifies this`dispatches, this`w
      ensures Valid() && w == Next(old(w), Send(slot))
      ensures dispatches == old(dispatches) + [Dispatch(node, ActionIdentity(scope, node), command, args)]
    {
      hide Of;
      ghost var loaded := Loaded(w);
      dispatches := dispatches + [Dispatch(node, ActionIdentity(scope, node), command, args)];
      w := Next(w, Send(slot));
      assert Loaded(w) == loaded;
    }

    /** A step that appends nothing. */
    ghost method Did(l: Label)
      requires Valid() && Enabled(w, l) && (l.Record? || l.Exit?)
      modifies this`w
      ensures Valid() && w == Next(old(w), l)
    {
      hide Of;
      ghost var loaded := Loaded(w);
      w := Next(w, l);
      assert Loaded(w) == loaded;
    }
  }

  lemma WorkExactly(w: World, scope: NodeId, name: string, command: string, args: seq<string>, node: NodeId)
    requires w.replay <= |w.journal|
    ensures var d := DispatchOf(w, Asked(scope, name, command, args, node));
            && d.node == node && d.identity == Identity(scope, node, "command_" + node)
            && (!HasIntent(Loaded(w), node) ==> d.command == command && d.args == args)
            && (HasIntent(Loaded(w), node) ==>
                  exists f :: f in Loaded(w) && f.Intent? && f.node == node && f.command == d.command && f.args == d.args)
  {
    FirstIntentFacts(Loaded(w), node);
  }

  lemma Recording(w: World, slot: Slot, node: NodeId, started: bool)
    requires w.replay <= |w.journal| && At(w, slot, Prepared) && w.calls[slot].node == node
    ensures Enabled(w, Record(slot, started))
    ensures var w' := Next(w, Record(slot, started));
            && w'.replay <= |w'.journal| && w'.dispatches == w.dispatches
            && if started then At(w', slot, Started) && w'.calls[slot] == w.calls[slot].(step := Started) && w'.answers == w.answers
               else w'.answers == w.answers + [Return(node, FAILED, false)]
  {
  }

  lemma Sending(w: World, slot: Slot, node: NodeId)
    requires w.replay <= |w.journal| && At(w, slot, Started) && w.calls[slot].node == node
    ensures Enabled(w, Send(slot))
    ensures var w' := Next(w, Send(slot));
            && w'.replay <= |w'.journal| && w'.answers == w.answers
            && At(w', slot, Running) && w'.calls[slot].node == node
  {
  }

  lemma Exiting(w: World, slot: Slot, node: NodeId, exit: Envelope)
    requires w.replay <= |w.journal| && (At(w, slot, Started) || At(w, slot, Running)) && w.calls[slot].node == node
    requires !exit.unresolved
    ensures Enabled(w, Exit(slot, exit))
    ensures var w' := Next(w, Exit(slot, exit));
            && w'.replay <= |w'.journal| && w'.answers == w.answers && w'.dispatches == w.dispatches
            && At(w', slot, Done(exit)) && w'.calls[slot].node == node
  {
  }

  lemma Committing(w: World, slot: Slot, node: NodeId, closed: bool, committed: bool)
    requires w.replay <= |w.journal| && slot in w.calls && w.calls[slot].step.Done? && w.calls[slot].node == node
    ensures Enabled(w, Commit(slot, closed, committed))
    ensures Next(w, Commit(slot, closed, committed)).answers ==
              w.answers + [Return(node, w.calls[slot].step.envelope, !closed && committed)]
    ensures Next(w, Commit(slot, closed, committed)).dispatches == w.dispatches
  {
  }

  lemma Visited(w: World, scope: NodeId, name: string, command: string, args: seq<string>, node: NodeId)
    requires Enabled(w, Visit(scope, name, command, args, node))
    ensures var w', slot, saved := DoVisit(w, scope, name, command, args, node), NextSlot(w, scope, name), Recorded(Loaded(w), node);
            && w' == Next(w, Visit(scope, name, command, args, node)) && w'.replay == w.replay && w'.journal == w.journal
            && w'.nodes == w.nodes[slot := node] && w'.ordinals == w.ordinals[(scope, name) := slot.ordinal]
            && w'.dispatches == w.dispatches && Loaded(w') == Loaded(w)
            && (if saved.Some? then w'.answers == w.answers + [Return(node, saved.value, true)]
                else var work := Work(w, node, command, args);
                     && slot in w'.calls && w'.calls[slot] == Call(scope, node, work.0, work.1, Preparing) && w'.answers == w.answers)
  {
  }

  lemma PreparedOr(w: World, slot: Slot, node: NodeId, committed: bool)
    requires w.replay <= |w.journal| && At(w, slot, Preparing) && w.calls[slot].node == node
    ensures Enabled(w, Prepare(slot, committed))
    ensures var w' := Next(w, Prepare(slot, committed));
            && w'.dispatches == w.dispatches
            && if committed
               then At(w', slot, Prepared) && w'.calls[slot] == w.calls[slot].(step := Prepared) && w'.replay <= |w'.journal| &&
                    w'.answers == w.answers
               else w'.answers == w.answers + [Return(node, FAILED, false)]
  {
  }

  lemma Step1(w: World, l: Label)
    requires Enabled(w, l)
    ensures IsRun(w, [l]) && After(w, [l]) == Next(w, l)
  {
    assert [l][1..] == [];
  }

  lemma {:induction false} Chain(w: World, a: seq<Label>, b: seq<Label>)
    requires IsRun(w, a) && IsRun(After(w, a), b)
    ensures IsRun(w, a + b) && After(w, a + b) == After(After(w, a), b)
    decreases a
  {
    if a == [] {
      assert a + b == b;
    } else {
      assert (a + b)[0] == a[0] && (a + b)[1..] == a[1..] + b;
      Chain(Next(w, a[0]), a[1..], b);
    }
  }

  /** One more step of a run. */
  lemma StepThen(w: World, a: seq<Label>, l: Label) returns (b: seq<Label>)
    requires IsRun(w, a) && Enabled(After(w, a), l)
    ensures b == a + [l] && IsRun(w, b) && After(w, b) == Next(After(w, a), l)
  {
    b := a + [l];
    Step1(After(w, a), l);
    Chain(w, a, [l]);
  }
}
