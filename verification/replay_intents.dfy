/** That a command runs what it was first asked to run (command.go:198-233, run_recording.go:97-119). Over every run, each
accepted intent is traced to the call that appended it. */
module ReplayIntents {
  import opened Wrappers
  import opened Replay

  lemma {:induction false} RunThen(w: World, run: seq<Label>, l: Label)
    requires IsRun(w, run) && Enabled(After(w, run), l)
    ensures IsRun(w, run + [l]) && After(w, run + [l]) == Next(After(w, run), l)
    decreases run
  {
    hide Enabled, Next;
    if run == [] {
      assert run + [l] == [l] && [l][1..] == [];
    } else {
      assert (run + [l])[1..] == run[1..] + [l];
      RunThen(Next(w, run[0]), run[1..], l);
    }
  }

  lemma {:induction false} RunCut(w: World, run: seq<Label>)
    requires IsRun(w, run) && run != []
    ensures var init, l := run[..|run| - 1], run[|run| - 1];
            IsRun(w, init) && Enabled(After(w, init), l) && After(w, run) == Next(After(w, init), l)
    decreases run
  {
    hide Enabled, Next;
    var init, l := run[..|run| - 1], run[|run| - 1];
    if init == [] {
      assert run == [l] && [l][1..] == [];
    } else {
      RunCut(Next(w, run[0]), run[1..]);
      assert run[1..][..|run| - 2] == init[1..];
    }
  }

  /** Label `i` of the run visits this slot for this node, and the run was not entered again since. */
  ghost predicate VisitedAt(run: seq<Label>, i: nat, slot: Slot, node: NodeId) {
    && i < |run| && run[i].Visit? && run[i].id == node && IsRun(INIT, run[..i])
    && NextSlot(After(INIT, run[..i]), run[i].scope, run[i].name) == slot
    && forall k | i < k < |run| :: !run[k].Reenter?
  }

  lemma VisitedLater(run: seq<Label>, l: Label, i: nat, slot: Slot, node: NodeId)
    requires VisitedAt(run, i, slot, node) && !l.Reenter?
    ensures VisitedAt(run + [l], i, slot, node) && (run + [l])[i] == run[i]
  {
    assert (run + [l])[..i] == run[..i];
  }

  /** The call was made by that label, and works on what it asked for unless an intent had been accepted before. */
  ghost predicate CallFrom(run: seq<Label>, w: World, slot: Slot, i: nat) {
    && slot in w.calls && VisitedAt(run, i, slot, w.calls[slot].node) && w.replay <= |w.journal|
    && (!HasIntent(Loaded(w), w.calls[slot].node) ==>
          w.calls[slot].command == run[i].command && w.calls[slot].args == run[i].args)
  }

  /** The call made at `i` appended this intent at `j`. */
  ghost predicate AppendedBy(run: seq<Label>, i: nat, j: nat, slot: Slot, f: Fact) {
    && i < j < |run| && f.Intent? && VisitedAt(run[..j], i, slot, f.node) && run[j] == Prepare(slot, true)
    && f.command == run[i].command && f.args == run[i].args
    && IsRun(INIT, run[..j]) && f !in After(INIT, run[..j]).journal
    && IsRun(INIT, run[..j + 1]) && f in After(INIT, run[..j + 1]).journal
  }

  ghost predicate Traced(run: seq<Label>, w: World) {
    && (forall slot | slot in w.calls :: exists i :: CallFrom(run, w, slot, i))
    && (forall f | f in w.journal && f.Intent? :: exists i, j, slot :: AppendedBy(run, i, j, slot, f))
  }

  lemma AppendedLater(run: seq<Label>, l: Label, i: nat, j: nat, slot: Slot, f: Fact)
    requires AppendedBy(run, i, j, slot, f)
    ensures AppendedBy(run + [l], i, j, slot, f)
  {
    assert (run + [l])[..j] == run[..j] && (run + [l])[..j + 1] == run[..j + 1];
  }

  /** What a step does to the calls it is not about, and to what was loaded. */
  lemma OtherCalls(w: World, l: Label)
    requires Enabled(w, l) && !l.Reenter?
    ensures Next(w, l).replay == w.replay && w.journal <= Next(w, l).journal
    ensures var w' := Next(w, l);
            forall slot | slot in w'.calls && !(l.Visit? && slot == NextSlot(w, l.scope, l.name)) ::
              && slot in w.calls && w'.calls[slot].node == w.calls[slot].node
              && w'.calls[slot].command == w.calls[slot].command && w'.calls[slot].args == w.calls[slot].args
  {
    hide FirstIntent, Recorded, ActionIdentity;
  }

  lemma SameLoaded(w: World, w': World)
    requires w.replay <= |w.journal| && w'.replay == w.replay && w.journal <= w'.journal
    ensures w'.replay <= |w'.journal| && Loaded(w') == Loaded(w)
  {
  }

  lemma CallsTraced(run: seq<Label>, w: World, l: Label, slot: Slot)
    requires Enabled(w, l) && Traced(run, w) && slot in Next(w, l).calls
    requires !(l.Visit? && slot == NextSlot(w, l.scope, l.name))
    ensures exists i :: CallFrom(run + [l], Next(w, l), slot, i)
  {
    hide Enabled, Next, Traced, HasIntent;
    NoCallsAgain(w, l);
    OtherCalls(w, l);
    EnabledLoads(w, l);
    SameLoaded(w, Next(w, l));
    var i := MadeBy(run, w, slot);
    KeepsFrom(run, w, Next(w, l), l, slot, i);
  }

  lemma KeepsFrom(run: seq<Label>, w: World, w': World, l: Label, slot: Slot, i: nat)
    requires CallFrom(run, w, slot, i) && !l.Reenter? && slot in w'.calls
    requires w'.replay <= |w'.journal| && Loaded(w') == Loaded(w)
    requires w'.calls[slot].node == w.calls[slot].node
    requires w'.calls[slot].command == w.calls[slot].command && w'.calls[slot].args == w.calls[slot].args
    ensures CallFrom(run + [l], w', slot, i)
  {
    hide HasIntent, VisitedAt;
    VisitedLater(run, l, i, slot, w.calls[slot].node);
    VisitedIn(run, i, slot, w.calls[slot].node);
  }

  lemma VisitedIn(run: seq<Label>, i: nat, slot: Slot, node: NodeId)
    requires VisitedAt(run, i, slot, node)
    ensures i < |run| && run[i].Visit?
  {
  }

  lemma EnabledLoads(w: World, l: Label)
    requires Enabled(w, l)
    ensures w.replay <= |w.journal|
  {
  }

  lemma NoCallsAgain(w: World, l: Label)
    requires Enabled(w, l)
    ensures l.Reenter? ==> Next(w, l).calls == map[]
  {
  }

  lemma VisitTraced(run: seq<Label>, l: Label, slot: Slot)
    requires IsRun(INIT, run) && Enabled(After(INIT, run), l) && l.Visit?
    requires slot == NextSlot(After(INIT, run), l.scope, l.name) && slot in Next(After(INIT, run), l).calls
    requires slot !in After(INIT, run).calls
    ensures CallFrom(run + [l], Next(After(INIT, run), l), slot, |run|)
  {
    hide IsRun, After;
    var w := After(INIT, run);
    assert (run + [l])[..|run|] == run;
    FirstIntentFacts(Loaded(w), l.id);
  }

  lemma IntentTraced(run: seq<Label>, l: Label, f: Fact)
    requires IsRun(INIT, run) && Enabled(After(INIT, run), l) && Traced(run, After(INIT, run)) && Inv(After(INIT, run))
    requires f in Next(After(INIT, run), l).journal && f.Intent?
    ensures exists i, j, slot :: AppendedBy(run + [l], i, j, slot, f)
  {
    hide IsRun, After, Enabled, Next, Traced, Inv;
    var w := After(INIT, run);
    if f in w.journal {
      OldIntent(run, w, f);
      var i, j, slot :| AppendedBy(run, i, j, slot, f);
      AppendedLater(run, l, i, j, slot, f);
    } else {
      NewIntent(w, l, f);
      var i := MadeBy(run, w, l.slot);
      RunThen(INIT, run, l);
      assert (run + [l])[..|run|] == run && (run + [l])[..|run| + 1] == run + [l];
      assert AppendedBy(run + [l], i, |run|, l.slot, f);
    }
  }

  lemma OldIntent(run: seq<Label>, w: World, f: Fact)
    requires Traced(run, w) && f in w.journal && f.Intent?
    ensures exists i, j, slot :: AppendedBy(run, i, j, slot, f)
  {
  }

  lemma MadeBy(run: seq<Label>, w: World, slot: Slot) returns (i: nat)
    requires Traced(run, w) && slot in w.calls
    ensures CallFrom(run, w, slot, i)
  {
    i :| CallFrom(run, w, slot, i);
  }

  lemma NewIntent(w: World, l: Label, f: Fact)
    requires Inv(w) && Enabled(w, l) && f in Next(w, l).journal && f !in w.journal && f.Intent?
    ensures l.Prepare? && l.ok && l.slot in w.calls && f.node == w.calls[l.slot].node
    ensures f.command == w.calls[l.slot].command && f.args == w.calls[l.slot].args && !HasIntent(Loaded(w), f.node)
  {
    hide Facts, Nodes, Slots, History;
    if l.Prepare? { FirstIntentFacts(Loaded(w), w.calls[l.slot].node); }
  }

  lemma {:induction false} TracedRun(run: seq<Label>)
    requires IsRun(INIT, run)
    ensures Traced(run, After(INIT, run)) && Inv(After(INIT, run))
    decreases |run|
  {
    hide Inv, Enabled, Next;
    if run == [] {
      NothingTraced();
    } else {
      var init, l := run[..|run| - 1], run[|run| - 1];
      RunCut(INIT, run);
      TracedRun(init);
      assert init + [l] == run;
      StepKeeps(After(INIT, init), l);
      forall slot | slot in After(INIT, run).calls ensures exists i :: CallFrom(run, After(INIT, run), slot, i) {
        if l.Visit? && slot == NextSlot(After(INIT, init), l.scope, l.name) {
          VisitIsFree(After(INIT, init), l);
          VisitTraced(init, l, slot);
        } else {
          CallsTraced(init, After(INIT, init), l, slot);
        }
      }
      forall f | f in After(INIT, run).journal && f.Intent? ensures exists i, j, slot :: AppendedBy(run, i, j, slot, f) {
        IntentTraced(init, l, f);
      }
    }
  }

  lemma VisitIsFree(w: World, l: Label)
    requires Inv(w) && Enabled(w, l) && l.Visit?
    ensures NextSlot(w, l.scope, l.name) !in w.calls
  {
    VisitIsNew(w, l);
  }

  lemma NothingTraced()
    ensures Traced([], INIT) && Inv(INIT) && IsRun(INIT, []) && After(INIT, []) == INIT
  {
  }

  /** Over every run, an accepted intent carries exactly the command and arguments of one visit of its node, the one whose
  own call appended it, with no restart between the two. */
  lemma IntentIsAsked(run: seq<Label>, f: Fact)
    requires IsRun(INIT, run) && f in After(INIT, run).journal && f.Intent?
    ensures exists i, j, slot :: AppendedBy(run, i, j, slot, f)
  {
    TracedRun(run);
  }

  /** So what is dispatched was asked for, by a visit of that node. */
  lemma DispatchIsAsked(run: seq<Label>, d: Dispatch)
    requires IsRun(INIT, run) && d in After(INIT, run).dispatches
    ensures exists i :: 0 <= i < |run| && run[i].Visit? && run[i].id == d.node && run[i].command == d.command && run[i].args == d.args
  {
    hide IsRun, After;
    DispatchFollowsIntent(run);
    IntentBehind(After(INIT, run), d);
    var f :| f in After(INIT, run).journal && f.Intent? && f.node == d.node && f.command == d.command && f.args == d.args;
    IntentIsAsked(run, f);
    var i, j, slot :| AppendedBy(run, i, j, slot, f);
    AskedBy(run, i, j, slot, f);
  }

  lemma IntentBehind(w: World, d: Dispatch)
    requires IntentOf(w.journal, d)
    ensures exists f :: f in w.journal && f.Intent? && f.node == d.node && f.command == d.command && f.args == d.args
  {
  }

  lemma AskedBy(run: seq<Label>, i: nat, j: nat, slot: Slot, f: Fact)
    requires AppendedBy(run, i, j, slot, f)
    ensures i < |run| && run[i].Visit? && run[i].id == f.node && run[i].command == f.command && run[i].args == f.args
  {
    hide IsRun, After;
    assert run[..j][i] == run[i];
  }

  /** Two nodes are never given one identity, nor one operation of the executor. */
  lemma IdentitiesDiffer(scope: NodeId, node: NodeId, other: NodeId, another: NodeId)
    requires node != another
    ensures ActionIdentity(scope, node).action != ActionIdentity(other, another).action
    ensures ActionIdentity(scope, node).operation != ActionIdentity(other, another).operation
  {
    assert ("command_" + node)[|"command_"|..] == node && ("command_" + another)[|"command_"|..] == another;
  }

  /** What a finished node returns: its first outcome; a later resolution replaces everything but an error that it leaves
  out; an unresolved one is none. */
  lemma OutcomeExactly(facts: seq<Fact>, node: NodeId, later: Envelope)
    requires forall f | f in facts :: !(f.Resolved? && f.node == node)
    ensures var first := FirstOutcome(facts, node);
            && Recorded(facts, node) == (if first.Some? && !first.value.unresolved then first else None)
            && Recorded(facts + [Resolved(node, later)], node) ==
               (if later.unresolved then None
                else Some(Envelope(false, if later.error != "" || first.None? then later.error else first.value.error, later.result)))
  {
    hide Resolve, FirstOutcome;
    NothingOverrides(FirstOutcome(facts, node), facts, node);
    FirstStays(facts, node, later);
    ResolvesOver(FirstOutcome(facts, node), facts, node, later);
  }

  lemma ResolvesOver(base: Option<Envelope>, facts: seq<Fact>, node: NodeId, later: Envelope)
    ensures var e := Resolve(base, facts, node);
            Resolve(base, facts + [Resolved(node, later)], node) ==
            Some(later.(error := if later.error != "" || e.None? then later.error else e.value.error))
  {
    assert (facts + [Resolved(node, later)])[..|facts|] == facts;
  }

  lemma {:induction false} NothingOverrides(base: Option<Envelope>, facts: seq<Fact>, node: NodeId)
    requires forall f | f in facts :: !(f.Resolved? && f.node == node)
    ensures Resolve(base, facts, node) == base
  {
    if facts != [] {
      assert facts[|facts| - 1] in facts && forall f | f in facts[..|facts| - 1] :: f in facts;
      NothingOverrides(base, facts[..|facts| - 1], node);
    }
  }

  lemma {:induction false} FirstStays(facts: seq<Fact>, node: NodeId, later: Envelope)
    ensures FirstOutcome(facts + [Resolved(node, later)], node) == FirstOutcome(facts, node)
  {
    var all := facts + [Resolved(node, later)];
    if facts == [] {
      assert all[1..] == [];
    } else {
      assert all[0] == facts[0] && all[1..] == facts[1..] + [Resolved(node, later)];
      FirstStays(facts[1..], node, later);
    }
  }

  /** The first outcome in the order of the journal. */
  lemma {:induction false} FirstExactly(facts: seq<Fact>, node: NodeId, e: Envelope)
    ensures FirstOutcome(facts, node) == Some(e) <==>
              exists i :: 0 <= i < |facts| && facts[i] == Outcome(node, e) && forall k | 0 <= k < i :: !(facts[k].Outcome? && facts[k].node == node)
  {
    if facts != [] {
      var rest := facts[1..];
      FirstExactly(rest, node, e);
      if facts[0].Outcome? && facts[0].node == node {
        assert facts[0] == Outcome(node, facts[0].envelope);
      } else {
        if i :| 0 <= i < |rest| && rest[i] == Outcome(node, e) && forall k | 0 <= k < i :: !(rest[k].Outcome? && rest[k].node == node) {
          assert facts[i + 1] == Outcome(node, e);
          assert forall k | 0 < k < i + 1 :: facts[k] == rest[k - 1];
        }
        if i :| 0 <= i < |facts| && facts[i] == Outcome(node, e) && forall k | 0 <= k < i :: !(facts[k].Outcome? && facts[k].node == node) {
          assert rest[i - 1] == Outcome(node, e) && forall k | 0 <= k < i - 1 :: rest[k] == facts[k + 1];
        }
      }
    }
  }
}
