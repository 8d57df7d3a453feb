/** When a command that was dispatched is dispatched again (command.go:185-284). A later entry of the run comes to the
same slot, finds the accepted intent, and sends the command once more unless its outcome was committed. */
module ReplayAgain {
  import opened Wrappers
  import opened Replay

  ghost predicate Newly(was: seq<Dispatch>, now: seq<Dispatch>, node: NodeId) {
    was <= now && exists i :: |was| <= i < |now| && now[i].node == node
  }

  ghost predicate MayDispatch(w: World, node: NodeId) {
    exists more :: IsRun(w, more) && Newly(w.dispatches, After(w, more).dispatches, node)
  }

  // ---- with an outcome, never ----

  lemma OnlySendDispatches(w: World, l: Label)
    requires Enabled(w, l)
    ensures w.dispatches <= Next(w, l).dispatches
    ensures if l.Send? then l.slot in w.calls && |Next(w, l).dispatches| == |w.dispatches| + 1
              && Next(w, l).dispatches[|w.dispatches|].node == w.calls[l.slot].node
            else Next(w, l).dispatches == w.dispatches
  {
  }

  lemma JournalGrows(w: World, l: Label)
    requires Enabled(w, l)
    ensures w.journal <= Next(w, l).journal
  {
  }

  lemma OutcomeStays(w: World, l: Label, node: NodeId)
    requires Enabled(w, l) && HasOutcome(w.journal, node)
    ensures HasOutcome(Next(w, l).journal, node)
  {
    JournalGrows(w, l);
    var f :| f in w.journal && f.Outcome? && f.node == node;
    assert f in Next(w, l).journal;
  }

  lemma {:induction false} NeverNewly(w: World, more: seq<Label>, node: NodeId)
    requires Inv(w) && IsRun(w, more) && HasOutcome(w.journal, node)
    ensures w.dispatches <= After(w, more).dispatches && !Newly(w.dispatches, After(w, more).dispatches, node)
    decreases more
  {
    hide Inv, Enabled, Next, HasOutcome;
    if more != [] {
      var v := Next(w, more[0]);
      OnlySendDispatches(w, more[0]);
      if more[0].Send? { SendHasNone(w, more[0].slot); }
      OutcomeStays(w, more[0], node);
      StepKeeps(w, more[0]);
      NeverNewly(v, more[1..], node);
      var now := After(v, more[1..]).dispatches;
      assert forall i | |w.dispatches| <= i < |v.dispatches| :: now[i] == v.dispatches[i];
    }
  }

  lemma SendHasNone(w: World, slot: Slot)
    requires Inv(w) && Enabled(w, Send(slot))
    ensures !HasOutcome(w.journal, w.calls[slot].node)
  {
    hide Facts, Nodes, Slots, History, HasOutcome, HasIntent, IntentOf;
    assert CallOk(w, slot, w.calls[slot]);
  }

  // ---- without one, a later entry does ----

  lemma DispatchesNow(w: World, slot: Slot)
    requires Enabled(w, Send(slot))
    ensures MayDispatch(w, w.calls[slot].node)
  {
    hide Next, Enabled;
    var l := Send(slot);
    OnlySendDispatches(w, l);
    assert [l][1..] == [];
    assert IsRun(w, [l]) && After(w, [l]) == Next(w, l);
    assert After(w, [l]).dispatches[|w.dispatches|].node == w.calls[slot].node;
  }

  lemma DispatchesThen(w: World, l: Label, node: NodeId)
    requires Enabled(w, l) && MayDispatch(Next(w, l), node)
    ensures MayDispatch(w, node)
  {
    hide Enabled, Next;
    var v := Next(w, l);
    OnlySendDispatches(w, l);
    var more :| IsRun(v, more) && Newly(v.dispatches, After(v, more).dispatches, node);
    assert ([l] + more)[1..] == more;
    assert IsRun(w, [l] + more) && After(w, [l] + more) == After(v, more);
    assert w.dispatches <= v.dispatches;
  }

  /** A call that has only begun goes through. */
  lemma BegunDispatches(w: World, slot: Slot)
    requires At(w, slot, Preparing) && w.replay <= |w.journal|
    ensures MayDispatch(w, w.calls[slot].node)
  {
    hide MayDispatch;
    var u := Next(w, Prepare(slot, true));
    var v := Next(u, Record(slot, true));
    DispatchesNow(v, slot);
    DispatchesThen(u, Record(slot, true), w.calls[slot].node);
    DispatchesThen(w, Prepare(slot, true), w.calls[slot].node);
  }

  /** The slot is the next one of its name in this entry, and no outcome of its node is committed. */
  lemma VisitDispatches(w: World, slot: Slot)
    requires Inv(w) && slot in w.nodes && NextSlot(w, slot.scope, slot.name) == slot
    requires !HasOutcome(w.journal, w.nodes[slot])
    ensures MayDispatch(w, w.nodes[slot])
  {
    hide MayDispatch, Facts, Nodes, Calls, History, HasOutcome, FirstIntent;
    var l := Visit(slot.scope, slot.name, "", [], w.nodes[slot]);
    NothingRecorded(w, w.nodes[slot]);
    BegunDispatches(Next(w, l), slot);
    DispatchesThen(w, l, w.nodes[slot]);
  }

  lemma NothingRecorded(w: World, node: NodeId)
    requires Inv(w) && !HasOutcome(w.journal, node)
    ensures w.replay <= |w.journal| && Recorded(Loaded(w), node).None?
  {
    RecordedFacts(w, node);
    LoadedMembers(w);
  }

  lemma {:induction false} Longest(ids: set<NodeId>) returns (n: nat)
    ensures forall id | id in ids :: |id| <= n
    decreases |ids|
  {
    n := 0;
    if id :| id in ids {
      n := Longest(ids - {id});
      if n < |id| { n := |id|; }
    }
  }

  lemma NewNode(ids: set<NodeId>) returns (id: NodeId)
    ensures id !in ids
  {
    var n := Longest(ids);
    id := seq(n + 1, _ => 'x');
  }

  function Used(w: World, scope: NodeId, name: string): nat {
    if (scope, name) in w.ordinals then w.ordinals[(scope, name)] else 0
  }

  /** One more use of the name, whatever node it has or gets. */
  lemma VisitOne(w: World, scope: NodeId, name: string) returns (l: Label)
    requires w.replay <= |w.journal|
    ensures l.Visit? && Enabled(w, l) && l.scope == scope && l.name == name
    ensures var v := Next(w, l);
            && v.journal == w.journal && v.dispatches == w.dispatches && Used(v, scope, name) == Used(w, scope, name) + 1
            && forall s | s in w.nodes :: s in v.nodes && v.nodes[s] == w.nodes[s]
  {
    var slot := NextSlot(w, scope, name);
    var id := NewNode(w.nodes.Values);
    l := Visit(scope, name, "", [], if slot in w.nodes then w.nodes[slot] else id);
  }

  /** The name is used until the slot's turn has come. */
  lemma {:induction false} Climb(w: World, slot: Slot)
    requires Inv(w) && slot in w.nodes && Used(w, slot.scope, slot.name) < slot.ordinal
    requires !HasOutcome(w.journal, w.nodes[slot])
    ensures MayDispatch(w, w.nodes[slot])
    decreases slot.ordinal - Used(w, slot.scope, slot.name)
  {
    hide Inv, MayDispatch, HasOutcome, Enabled, Next;
    if Used(w, slot.scope, slot.name) + 1 == slot.ordinal {
      VisitDispatches(w, slot);
    } else {
      LoadedIsIn(w);
      var l := VisitOne(w, slot.scope, slot.name);
      StepKeeps(w, l);
      Climb(Next(w, l), slot);
      DispatchesThen(w, l, w.nodes[slot]);
    }
  }

  lemma LoadedIsIn(w: World)
    requires Inv(w)
    ensures w.replay <= |w.journal|
  {
  }

  // ---- exactly when ----

  ghost predicate Positive(w: World) { forall s | s in w.nodes :: s.ordinal > 0 }

  lemma PositiveStep(w: World, l: Label)
    requires Enabled(w, l) && Positive(w)
    ensures Positive(Next(w, l))
  {
  }

  lemma {:induction false} PositiveRun(w: World, run: seq<Label>)
    requires IsRun(w, run) && Positive(w)
    ensures Positive(After(w, run))
    decreases run
  {
    hide Enabled, Next, Positive;
    if run != [] {
      PositiveStep(w, run[0]);
      PositiveRun(Next(w, run[0]), run[1..]);
    }
  }

  lemma InitOk()
    ensures Inv(INIT)
  {
  }

  lemma DispatchedHasSlot(w: World, d: Dispatch) returns (slot: Slot)
    requires Inv(w) && d in w.dispatches
    ensures slot in w.nodes && w.nodes[slot] == d.node
  {
    hide Facts, Slots, Calls;
    var f :| f in w.journal && f.Intent? && f.node == d.node && f.command == d.command && f.args == d.args && f.identity == d.identity;
    assert f.node in w.nodes.Values;
    slot :| slot in w.nodes && w.nodes[slot] == d.node;
  }

  /** A command that was dispatched, at any point of any run, is dispatched again by some continuation if and only if no
  outcome of it is committed. */
  lemma DispatchedAgainExactly(run: seq<Label>, d: Dispatch)
    requires IsRun(INIT, run) && d in After(INIT, run).dispatches
    ensures MayDispatch(After(INIT, run), d.node) <==> !HasOutcome(After(INIT, run).journal, d.node)
  {
    hide Inv, HasOutcome, Newly;
    InitOk();
    RunKeeps(INIT, run);
    PositiveRun(INIT, run);
    var w := After(INIT, run);
    var slot := DispatchedHasSlot(w, d);
    if HasOutcome(w.journal, d.node) {
      forall more | IsRun(w, more) ensures !Newly(w.dispatches, After(w, more).dispatches, d.node) {
        NeverNewly(w, more, d.node);
      }
    } else {
      LoadedIsIn(w);
      StepKeeps(w, Reenter);
      Climb(Next(w, Reenter), slot);
      DispatchesThen(w, Reenter, d.node);
    }
  }
}
