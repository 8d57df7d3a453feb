/** Durable commands (command.go:185-284, run_recording.go:25-201, replay.go:12-100, runstore/store.go:53-117).
Intent is committed before a command is dispatched and its outcome after; a crash may fall between any two steps,
and the run is entered again with what the journal committed. Any number of commands may be in flight. */
module Replay {
  import opened Wrappers

  type NodeId = string

  /** The run store makes one node for each slot. */
  datatype Slot = Slot(scope: NodeId, name: string, ordinal: nat)
  datatype Output = Output(exitCode: int, interrupted: bool, stdout: string, stderr: string)
  datatype Envelope = Envelope(unresolved: bool, error: string, result: Output)
  datatype Identity = Identity(scope: NodeId, action: NodeId, operation: string)

  datatype Fact =
    | Intent(node: NodeId, command: string, args: seq<string>, identity: Identity)
    | Binding(node: NodeId, identity: Identity)
    | Outcome(node: NodeId, envelope: Envelope)
    | Resolved(node: NodeId, envelope: Envelope)
    | Other(node: NodeId)

  /** run_recording.go:84-96, for a process. */
  function ActionIdentity(scope: NodeId, node: NodeId): Identity { Identity(scope, node, "command_" + node) }

  // ---- what a replay says of a node ----

  function FirstIntent(facts: seq<Fact>, node: NodeId): (r: Option<Fact>)
    ensures r.Some? ==> r.value.Intent? && r.value.node == node
  {
    if facts == [] then None
    else if facts[0].Intent? && facts[0].node == node then Some(facts[0])
    else FirstIntent(facts[1..], node)
  }

  function FirstOutcome(facts: seq<Fact>, node: NodeId): Option<Envelope> {
    if facts == [] then None
    else if facts[0].Outcome? && facts[0].node == node then Some(facts[0].envelope)
    else FirstOutcome(facts[1..], node)
  }

  const BLANK := Envelope(false, "", Output(0, false, "", ""))

  /** Decoding a later envelope over an earlier one keeps an error that the later one leaves out. */
  function Over(e: Envelope, later: Envelope): Envelope {
    later.(error := if later.error == "" then e.error else later.error)
  }

  function Resolve(base: Option<Envelope>, facts: seq<Fact>, node: NodeId): Option<Envelope> {
    if facts == [] then base
    else
      var earlier, last := Resolve(base, facts[..|facts| - 1], node), facts[|facts| - 1];
      if last.Resolved? && last.node == node
      then Some(Over(if earlier.Some? then earlier.value else BLANK, last.envelope)) else earlier
  }

  /** replay.go:57-92: what a finished node returns. */
  function Recorded(facts: seq<Fact>, node: NodeId): Option<Envelope> {
    var e := Resolve(FirstOutcome(facts, node), facts, node);
    if e.Some? && e.value.unresolved then None else e
  }

  // ---- the machine ----

  datatype Step = Preparing | Prepared | Started | Running | Done(envelope: Envelope)
  datatype Call = Call(scope: NodeId, node: NodeId, command: string, args: seq<string>, step: Step)
  datatype Dispatch = Dispatch(node: NodeId, identity: Identity, command: string, args: seq<string>)
  /** `recorded` says that the result is in the journal when the call returns it. */
  datatype Return = Return(node: NodeId, envelope: Envelope, recorded: bool)

  /** `replay` is the part of the journal that this entry loaded; `visited` are the slots it has used. */
  datatype World = World(journal: seq<Fact>, nodes: map<Slot, NodeId>, replay: nat, visited: set<Slot>,
                         ordinals: map<(NodeId, string), nat>, calls: map<Slot, Call>,
                         dispatches: seq<Dispatch>, answers: seq<Return>)

  const INIT := World([], map[], 0, {}, map[], map[], [], [])

  datatype Label =
    | Visit(scope: NodeId, name: string, command: string, args: seq<string>, id: NodeId)
    /** Not `ok` when this or an earlier record could not be written (run_recording.go:97-119). */
    | Prepare(slot: Slot, ok: bool)
    | Record(slot: Slot, ok: bool)
    | Send(slot: Slot)
    | Exit(slot: Slot, envelope: Envelope)
    | Commit(slot: Slot, closed: bool, ok: bool)
    | Elsewhere(fact: Fact)
    | Reenter

  const FAILED := Envelope(false, "recording failed", Output(-1, false, "", ""))

  function NextSlot(w: World, scope: NodeId, name: string): Slot {
    Slot(scope, name, if (scope, name) in w.ordinals then w.ordinals[(scope, name)] + 1 else 1)
  }

  function Loaded(w: World): seq<Fact>
    requires w.replay <= |w.journal|
  {
    w.journal[..w.replay]
  }

  predicate At(w: World, slot: Slot, step: Step) { slot in w.calls && w.calls[slot].step == step }

  predicate Enabled(w: World, l: Label) {
    w.replay <= |w.journal| &&
    match l
    case Visit(scope, name, _, _, id) =>
      var slot := NextSlot(w, scope, name);
      if slot in w.nodes then id == w.nodes[slot] else id !in w.nodes.Values
    case Prepare(slot, _) => At(w, slot, Preparing)
    case Record(slot, _) => At(w, slot, Prepared)
    case Send(slot) => At(w, slot, Started)
    case Exit(slot, e) => (At(w, slot, Running) || At(w, slot, Started)) && !e.unresolved
    case Commit(slot, _, _) => slot in w.calls && w.calls[slot].step.Done?
    case Elsewhere(f) => f.Other?
    case Reenter => true
  }

  function Finish(w: World, slot: Slot, r: Return): World {
    w.(calls := w.calls - {slot}, answers := w.answers + [r])
  }

  function Move(w: World, slot: Slot, step: Step): World
    requires slot in w.calls
  {
    w.(calls := w.calls[slot := w.calls[slot].(step := step)])
  }

  /** The beginning of runCommand: the node, then its recorded outcome, or the accepted intent's own command. */
  function DoVisit(w: World, scope: NodeId, name: string, command: string, args: seq<string>, id: NodeId): World
    requires w.replay <= |w.journal|
  {
    var slot := NextSlot(w, scope, name);
    var w' := w.(nodes := w.nodes[slot := id], visited := w.visited + {slot}, ordinals := w.ordinals[(scope, name) := slot.ordinal]);
    var intent, recorded := FirstIntent(Loaded(w), id), Recorded(Loaded(w), id);
    if recorded.Some? then w'.(answers := w.answers + [Return(id, recorded.value, true)])
    else if intent.Some? then w'.(calls := w.calls[slot := Call(scope, id, intent.value.command, intent.value.args, Preparing)])
    else w'.(calls := w.calls[slot := Call(scope, id, command, args, Preparing)])
  }

  function Next(w: World, l: Label): World
    requires Enabled(w, l)
  {
    match l
    case Visit(scope, name, command, args, id) => DoVisit(w, scope, name, command, args, id)
    case Prepare(slot, ok) =>
      var c := w.calls[slot];
      if !ok then Finish(w, slot, Return(c.node, FAILED, false))
      else if FirstIntent(Loaded(w), c.node).Some? then Move(w, slot, Prepared)
      else
        var identity := ActionIdentity(c.scope, c.node);
        Move(w.(journal := w.journal + [Intent(c.node, c.command, c.args, identity), Binding(c.node, identity)]), slot, Prepared)
    case Record(slot, ok) =>
      if ok then Move(w, slot, Started) else Finish(w, slot, Return(w.calls[slot].node, FAILED, false))
    case Send(slot) =>
      var c := w.calls[slot];
      Move(w.(dispatches := w.dispatches + [Dispatch(c.node, ActionIdentity(c.scope, c.node), c.command, c.args)]), slot, Running)
    case Exit(slot, e) => Move(w, slot, Done(e))
    case Commit(slot, closed, ok) =>
      var c := w.calls[slot];
      var e := c.step.envelope;
      if closed || !ok then Finish(w, slot, Return(c.node, e, false))
      else Finish(w.(journal := w.journal + [Outcome(c.node, e)]), slot, Return(c.node, e, true))
    case Elsewhere(f) => w.(journal := w.journal + [f])
    case Reenter => w.(replay := |w.journal|, visited := {}, ordinals := map[], calls := map[])
  }

  // ---- the invariant ----

  ghost predicate HasIntent(facts: seq<Fact>, node: NodeId) { exists f :: f in facts && f.Intent? && f.node == node }
  ghost predicate HasOutcome(facts: seq<Fact>, node: NodeId) { exists f :: f in facts && f.Outcome? && f.node == node }

  ghost predicate IntentOf(facts: seq<Fact>, d: Dispatch) {
    exists f :: f in facts && f.Intent? && f.node == d.node && f.command == d.command && f.args == d.args && f.identity == d.identity
  }

  ghost predicate Facts(w: World) {
    && (forall i, j | 0 <= i < j < |w.journal| && w.journal[i].Intent? && w.journal[j].Intent? ::
          w.journal[i].node != w.journal[j].node)
    && (forall i, j | 0 <= i < j < |w.journal| && w.journal[i].Outcome? && w.journal[j].Outcome? ::
          w.journal[i].node != w.journal[j].node)
    && (forall f | f in w.journal :: !f.Resolved? && (f.Outcome? ==> !f.envelope.unresolved))
  }

  ghost predicate Nodes(w: World) {
    && (forall s, t | s in w.nodes && t in w.nodes && w.nodes[s] == w.nodes[t] :: s == t)
    && (forall f | f in w.journal && (f.Intent? || f.Outcome?) :: f.node in w.nodes.Values)
    && (forall s | s in w.nodes && HasIntent(w.journal, w.nodes[s]) ::
          forall f | f in w.journal && f.Intent? && f.node == w.nodes[s] :: f.identity == ActionIdentity(s.scope, f.node))
  }

  /** A slot this entry has not used is in the journal only as far as the entry loaded it. */
  ghost predicate Slots(w: World) {
    && w.replay <= |w.journal|
    && (forall s | s in w.nodes && s !in w.visited ::
          (HasIntent(w.journal, w.nodes[s]) ==> HasIntent(Loaded(w), w.nodes[s])) &&
          (HasOutcome(w.journal, w.nodes[s]) ==> HasOutcome(Loaded(w), w.nodes[s])))
    && (forall s | s in w.visited :: s in w.nodes && (s.scope, s.name) in w.ordinals && s.ordinal <= w.ordinals[(s.scope, s.name)])
    && (forall s | s in w.calls :: s in w.visited)
  }

  ghost predicate CallOk(w: World, s: Slot, c: Call) {
    && w.replay <= |w.journal| && s in w.nodes && c.node == w.nodes[s] && c.scope == s.scope && !HasOutcome(w.journal, c.node)
    && (c.step.Done? ==> !c.step.envelope.unresolved)
    && (if c.step.Preparing?
        then HasIntent(w.journal, c.node) ==> HasIntent(Loaded(w), c.node)
        else HasIntent(w.journal, c.node))
    && (HasIntent(w.journal, c.node) ==> IntentOf(w.journal, Dispatch(c.node, ActionIdentity(c.scope, c.node), c.command, c.args)))
  }

  ghost predicate Calls(w: World) { w.replay <= |w.journal| && forall s | s in w.calls :: CallOk(w, s, w.calls[s]) }

  ghost predicate History(w: World) {
    && (forall d | d in w.dispatches :: IntentOf(w.journal, d))
    && (forall r | r in w.answers && r.recorded :: Outcome(r.node, r.envelope) in w.journal)
  }

  ghost predicate Inv(w: World) { Facts(w) && Nodes(w) && Slots(w) && Calls(w) && History(w) }

  // ---- scans ----

  lemma {:induction false} FirstIntentFacts(facts: seq<Fact>, node: NodeId)
    ensures FirstIntent(facts, node).Some? <==> HasIntent(facts, node)
    ensures FirstIntent(facts, node).Some? ==>
              var f := FirstIntent(facts, node).value; f in facts && f.Intent? && f.node == node
  {
    if facts != [] {
      FirstIntentFacts(facts[1..], node);
      assert facts == [facts[0]] + facts[1..];
      assert HasIntent(facts, node) <==> (facts[0].Intent? && facts[0].node == node) || HasIntent(facts[1..], node);
    }
  }

  lemma {:induction false} FirstOutcomeFacts(facts: seq<Fact>, node: NodeId)
    ensures FirstOutcome(facts, node).Some? <==> HasOutcome(facts, node)
    ensures FirstOutcome(facts, node).Some? ==> Outcome(node, FirstOutcome(facts, node).value) in facts
  {
    if facts != [] {
      FirstOutcomeFacts(facts[1..], node);
      assert facts == [facts[0]] + facts[1..];
      assert HasOutcome(facts, node) <==> (facts[0].Outcome? && facts[0].node == node) || HasOutcome(facts[1..], node);
    }
  }

  lemma {:induction false} NothingResolved(base: Option<Envelope>, facts: seq<Fact>, node: NodeId)
    requires forall f | f in facts :: !f.Resolved?
    ensures Resolve(base, facts, node) == base
  {
    if facts != [] {
      assert facts[|facts| - 1] in facts;
      assert forall f | f in facts[..|facts| - 1] :: f in facts;
      NothingResolved(base, facts[..|facts| - 1], node);
    }
  }

  /** For a command, what is recorded is its one outcome. */
  lemma RecordedFacts(w: World, node: NodeId)
    requires Facts(w) && w.replay <= |w.journal|
    ensures Recorded(Loaded(w), node).Some? <==> HasOutcome(Loaded(w), node)
    ensures Recorded(Loaded(w), node).Some? ==> Outcome(node, Recorded(Loaded(w), node).value) in w.journal
  {
    var facts := Loaded(w);
    forall f | f in facts ensures f in w.journal {}
    FirstOutcomeFacts(facts, node);
    NothingResolved(FirstOutcome(facts, node), facts, node);
  }

  // ---- every step keeps the invariant ----

  lemma LoadedMembers(w: World)
    requires w.replay <= |w.journal|
    ensures forall f | f in Loaded(w) :: f in w.journal
    ensures forall n | HasIntent(Loaded(w), n) :: HasIntent(w.journal, n)
    ensures forall n | HasOutcome(Loaded(w), n) :: HasOutcome(w.journal, n)
  {
  }

  lemma Appended(journal: seq<Fact>, more: seq<Fact>, replay: nat)
    requires replay <= |journal|
    ensures (journal + more)[..replay] == journal[..replay]
    ensures forall f :: f in journal + more <==> f in journal || f in more
  {
  }

  lemma VisitIsNew(w: World, l: Label)
    requires Inv(w) && Enabled(w, l) && l.Visit?
    ensures NextSlot(w, l.scope, l.name) !in w.visited && NextSlot(w, l.scope, l.name) !in w.calls
    ensures NextSlot(w, l.scope, l.name) in w.nodes || (!HasIntent(w.journal, l.id) && !HasOutcome(w.journal, l.id))
  {
    hide Facts, Calls, History;
    if NextSlot(w, l.scope, l.name) !in w.nodes {
      assert forall f | f in w.journal && (f.Intent? || f.Outcome?) :: f.node != l.id;
    }
  }

  lemma VisitNodes(w: World, l: Label)
    requires Inv(w) && Enabled(w, l) && l.Visit?
    ensures Nodes(Next(w, l))
  {
    hide Facts, Calls, History, Slots;
    var w', slot := Next(w, l), NextSlot(w, l.scope, l.name);
    VisitIsNew(w, l);
    assert w'.nodes == w.nodes[slot := l.id] && w'.journal == w.journal;
    forall f | f in w.journal && (f.Intent? || f.Outcome?) ensures f.node in w'.nodes.Values {
      var s :| s in w.nodes && w.nodes[s] == f.node;
      assert w'.nodes[s] == f.node;
    }
  }

  lemma VisitSlots(w: World, l: Label)
    requires Inv(w) && Enabled(w, l) && l.Visit?
    ensures Slots(Next(w, l))
  {
    hide Facts, Calls, History, Nodes;
    VisitIsNew(w, l);
  }

  lemma VisitCalls(w: World, l: Label)
    requires Inv(w) && Enabled(w, l) && l.Visit?
    ensures Calls(Next(w, l))
  {
    var slot, w' := NextSlot(w, l.scope, l.name), Next(w, l);
    VisitIsNew(w, l);
    RecordedFacts(w, l.id);
    FirstIntentFacts(Loaded(w), l.id);
    LoadedMembers(w);
    forall s | s in w'.calls ensures CallOk(w', s, w'.calls[s]) {
      if s != slot { assert CallOk(w, s, w.calls[s]); }
    }
  }

  lemma VisitKeeps(w: World, l: Label)
    requires Inv(w) && Enabled(w, l) && l.Visit?
    ensures Inv(Next(w, l))
  {
    VisitNodes(w, l);
    VisitSlots(w, l);
    VisitCalls(w, l);
    RecordedFacts(w, l.id);
  }

  /** Steps that neither append nor touch the nodes: one call moves on, or returns. */
  lemma QuietKeeps(w: World, slot: Slot, step: Step, d: seq<Dispatch>)
    requires Inv(w) && slot in w.calls && w.dispatches <= d
    requires !step.Preparing? && HasIntent(w.journal, w.calls[slot].node) && (step.Done? ==> !step.envelope.unresolved)
    requires forall x | x in d && x !in w.dispatches :: IntentOf(w.journal, x)
    ensures Inv(Move(w.(dispatches := d), slot, step))
  {
    hide Facts, Nodes, HasIntent, HasOutcome, IntentOf;
    var w' := Move(w.(dispatches := d), slot, step);
    SameFacts(w, w');
    forall s | s in w'.calls ensures CallOk(w', s, w'.calls[s]) { assert CallOk(w, s, w.calls[s]); }
    assert Slots(w');
  }

  lemma SameFacts(w: World, w': World)
    requires Facts(w) && Nodes(w) && w'.journal == w.journal && w'.nodes == w.nodes
    ensures Facts(w') && Nodes(w')
  {
  }

  lemma FinishKeeps(w: World, slot: Slot, r: Return)
    requires Inv(w) && (r.recorded ==> Outcome(r.node, r.envelope) in w.journal)
    ensures Inv(Finish(w, slot, r))
  {
    hide Facts, Nodes, HasIntent, HasOutcome, IntentOf;
    var w' := Finish(w, slot, r);
    SameFacts(w, w');
    forall s | s in w'.calls ensures CallOk(w', s, w'.calls[s]) { assert CallOk(w, s, w.calls[s]); }
    assert Slots(w');
  }

  /** The facts a call may append about its own node. */
  ghost predicate MayAppend(w: World, slot: Slot, more: seq<Fact>) {
    && slot in w.calls && slot in w.nodes && w.calls[slot].node == w.nodes[slot]
    && (forall f | f in more :: f.node == w.nodes[slot] && !f.Resolved?)
    && (forall f | f in more && f.Intent? :: !HasIntent(w.journal, f.node) && f.identity == ActionIdentity(slot.scope, f.node))
    && (forall f | f in more && f.Outcome? :: !HasOutcome(w.journal, f.node) && !f.envelope.unresolved)
    && (forall i, j | 0 <= i < j < |more| :: !(more[i].Intent? && more[j].Intent?) && !(more[i].Outcome? && more[j].Outcome?))
  }

  lemma AppendFacts(w: World, slot: Slot, more: seq<Fact>)
    requires Inv(w) && MayAppend(w, slot, more)
    ensures Facts(w.(journal := w.journal + more))
  {
    hide Nodes, Slots, Calls, History;
    var w' := w.(journal := w.journal + more);
    forall i, j | 0 <= i < j < |w'.journal| && w'.journal[i].Intent? && w'.journal[j].Intent?
      ensures w'.journal[i].node != w'.journal[j].node
    {
      if j >= |w.journal| { assert w'.journal[j] == more[j - |w.journal|]; }
    }
    forall i, j | 0 <= i < j < |w'.journal| && w'.journal[i].Outcome? && w'.journal[j].Outcome?
      ensures w'.journal[i].node != w'.journal[j].node
    {
      if j >= |w.journal| { assert w'.journal[j] == more[j - |w.journal|]; }
    }
  }

  lemma AppendNodes(w: World, slot: Slot, more: seq<Fact>)
    requires Inv(w) && MayAppend(w, slot, more)
    ensures Nodes(w.(journal := w.journal + more))
  {
    hide Facts, Slots, Calls, History;
    assert w.nodes[slot] in w.nodes.Values;
  }

  /** Facts about one node leave the others as they were. */
  lemma AppendHas(w: World, slot: Slot, more: seq<Fact>, n: NodeId)
    requires MayAppend(w, slot, more)
    ensures HasIntent(w.journal + more, n) <==> HasIntent(w.journal, n) || HasIntent(more, n)
    ensures HasOutcome(w.journal + more, n) <==> HasOutcome(w.journal, n) || HasOutcome(more, n)
    ensures n != w.nodes[slot] ==> !HasIntent(more, n) && !HasOutcome(more, n)
    ensures forall d | IntentOf(w.journal, d) :: IntentOf(w.journal + more, d)
  {
    if f :| f in w.journal && f.Intent? && f.node == n { assert f in w.journal + more; }
    if f :| f in more && f.Intent? && f.node == n { assert f in w.journal + more; }
    if f :| f in w.journal && f.Outcome? && f.node == n { assert f in w.journal + more; }
    if f :| f in more && f.Outcome? && f.node == n { assert f in w.journal + more; }
    forall d | IntentOf(w.journal, d) ensures IntentOf(w.journal + more, d) {
      var f :| f in w.journal && f.Intent? && f.node == d.node && f.command == d.command && f.args == d.args && f.identity == d.identity;
      assert f in w.journal + more;
    }
  }

  lemma AppendSlots(w: World, slot: Slot, more: seq<Fact>)
    requires Inv(w) && MayAppend(w, slot, more)
    ensures Slots(w.(journal := w.journal + more))
  {
    hide Facts, Calls, History, HasIntent, HasOutcome;
    var w' := w.(journal := w.journal + more);
    Appended(w.journal, more, w.replay);
    assert Slots(w) && slot in w.visited;
    forall s | s in w.nodes && s !in w.visited
      ensures HasIntent(w'.journal, w.nodes[s]) ==> HasIntent(Loaded(w'), w.nodes[s])
      ensures HasOutcome(w'.journal, w.nodes[s]) ==> HasOutcome(Loaded(w'), w.nodes[s])
    {
      AppendHas(w, slot, more, w.nodes[s]);
      assert w.nodes[s] != w.nodes[slot];
    }
  }

  lemma AppendHistory(w: World, slot: Slot, more: seq<Fact>)
    requires Inv(w) && MayAppend(w, slot, more)
    ensures History(w.(journal := w.journal + more))
  {
    hide Facts, Calls, Nodes, Slots, HasIntent, HasOutcome;
    AppendHas(w, slot, more, w.nodes[slot]);
  }

  lemma AppendOtherCalls(w: World, slot: Slot, more: seq<Fact>, s: Slot)
    requires Inv(w) && MayAppend(w, slot, more) && s in w.calls && s != slot
    ensures CallOk(w.(journal := w.journal + more), s, w.calls[s])
  {
    hide Facts, HasIntent, HasOutcome, IntentOf;
    Appended(w.journal, more, w.replay);
    assert CallOk(w, s, w.calls[s]);
    assert w.nodes[s] != w.nodes[slot];
    AppendHas(w, slot, more, w.nodes[s]);
  }

  /** A call appends about its own node and moves on. */
  lemma AppendKeeps(w: World, slot: Slot, more: seq<Fact>, c: Call)
    requires Inv(w) && MayAppend(w, slot, more) && CallOk(w.(journal := w.journal + more), slot, c)
    ensures Inv(w.(journal := w.journal + more, calls := w.calls[slot := c]))
  {
    hide Facts, Nodes, HasIntent, HasOutcome, CallOk;
    var v := w.(journal := w.journal + more);
    AppendFacts(w, slot, more);
    AppendNodes(w, slot, more);
    AppendSlots(w, slot, more);
    AppendHistory(w, slot, more);
    var w' := v.(calls := w.calls[slot := c]);
    SameFacts(v, w');
    forall s | s in w'.calls ensures CallOk(w', s, w'.calls[s]) {
      if s != slot { AppendOtherCalls(w, slot, more, s); }
      SameCall(v, w', s, w'.calls[s]);
    }
    assert Slots(w') && slot in w.visited;
  }

  lemma SameCall(w: World, w': World, s: Slot, c: Call)
    requires CallOk(w, s, c) && w'.journal == w.journal && w'.nodes == w.nodes && w'.replay == w.replay
    ensures CallOk(w', s, c)
  {
  }

  lemma PrepareKeeps(w: World, slot: Slot, ok: bool)
    requires Inv(w) && Enabled(w, Prepare(slot, ok))
    ensures Inv(Next(w, Prepare(slot, ok)))
  {
    var c := w.calls[slot];
    assert CallOk(w, slot, c);
    FirstIntentFacts(Loaded(w), c.node);
    LoadedMembers(w);
    if !ok {
      FinishKeeps(w, slot, Return(c.node, FAILED, false));
    } else if FirstIntent(Loaded(w), c.node).Some? {
      QuietKeeps(w, slot, Prepared, w.dispatches);
    } else {
      var identity := ActionIdentity(c.scope, c.node);
      var intent := Intent(c.node, c.command, c.args, identity);
      IntentIsNew(w, slot, intent);
      AppendKeeps(w, slot, [intent, Binding(c.node, identity)], c.(step := Prepared));
    }
  }

  lemma IntentIsNew(w: World, slot: Slot, intent: Fact)
    requires Inv(w) && slot in w.calls && !HasIntent(w.journal, w.calls[slot].node)
    requires var c := w.calls[slot]; intent == Intent(c.node, c.command, c.args, ActionIdentity(c.scope, c.node))
    ensures var c := w.calls[slot];
            var more := [intent, Binding(c.node, ActionIdentity(c.scope, c.node))];
            MayAppend(w, slot, more) && CallOk(w.(journal := w.journal + more), slot, c.(step := Prepared))
  {
    hide Facts, Nodes, Slots, History;
    var c := w.calls[slot];
    var more := [intent, Binding(c.node, ActionIdentity(c.scope, c.node))];
    assert CallOk(w, slot, c);
    assert MayAppend(w, slot, more);
    AppendHas(w, slot, more, c.node);
    assert more[0] in w.journal + more;
  }

  lemma CommitKeeps(w: World, slot: Slot, closed: bool, ok: bool)
    requires Inv(w) && Enabled(w, Commit(slot, closed, ok))
    ensures Inv(Next(w, Commit(slot, closed, ok)))
  {
    var c := w.calls[slot];
    var e := c.step.envelope;
    assert CallOk(w, slot, c);
    if closed || !ok {
      FinishKeeps(w, slot, Return(c.node, e, false));
    } else {
      var more := [Outcome(c.node, e)];
      OutcomeKeeps(w, slot, more);
    }
  }

  lemma OutcomeKeeps(w: World, slot: Slot, more: seq<Fact>)
    requires Inv(w) && slot in w.calls && w.calls[slot].step.Done?
    requires more == [Outcome(w.calls[slot].node, w.calls[slot].step.envelope)]
    ensures Inv(Finish(w.(journal := w.journal + more), slot, Return(w.calls[slot].node, w.calls[slot].step.envelope, true)))
  {
    hide Facts, Nodes, HasIntent, HasOutcome;
    var c := w.calls[slot];
    assert CallOk(w, slot, c) && MayAppend(w, slot, more);
    var v := w.(journal := w.journal + more);
    var w' := Finish(v, slot, Return(c.node, c.step.envelope, true));
    AppendFacts(w, slot, more);
    AppendNodes(w, slot, more);
    AppendSlots(w, slot, more);
    AppendHistory(w, slot, more);
    SameFacts(v, w');
    forall s | s in w'.calls ensures CallOk(w', s, w'.calls[s]) {
      AppendOtherCalls(w, slot, more, s);
      SameCall(v, w', s, w'.calls[s]);
    }
    assert more[0] in w'.journal;
    assert Slots(w');
  }

  lemma SendKeeps(w: World, slot: Slot)
    requires Inv(w) && Enabled(w, Send(slot))
    ensures Inv(Next(w, Send(slot)))
  {
    var c := w.calls[slot];
    assert CallOk(w, slot, c);
    var d := Dispatch(c.node, ActionIdentity(c.scope, c.node), c.command, c.args);
    assert forall x :: x in w.dispatches + [d] <==> x in w.dispatches || x == d;
    QuietKeeps(w, slot, Running, w.dispatches + [d]);
  }

  lemma ElsewhereFacts(w: World, f: Fact)
    requires Facts(w) && Nodes(w) && f.Other?
    ensures Facts(w.(journal := w.journal + [f])) && Nodes(w.(journal := w.journal + [f]))
  {
    SameHas(w.journal, f);
  }

  lemma ElsewhereKeeps(w: World, f: Fact)
    requires Inv(w) && f.Other?
    ensures Inv(w.(journal := w.journal + [f]))
  {
    hide HasIntent, HasOutcome, IntentOf, Facts, Nodes;
    var w' := w.(journal := w.journal + [f]);
    ElsewhereFacts(w, f);
    Appended(w.journal, [f], w.replay);
    SameHas(w.journal, f);
    forall s | s in w'.calls ensures CallOk(w', s, w'.calls[s]) { assert CallOk(w, s, w.calls[s]); }
  }

  lemma SameHas(journal: seq<Fact>, f: Fact)
    requires f.Other?
    ensures forall n :: HasIntent(journal + [f], n) <==> HasIntent(journal, n)
    ensures forall n :: HasOutcome(journal + [f], n) <==> HasOutcome(journal, n)
    ensures forall d :: IntentOf(journal + [f], d) <==> IntentOf(journal, d)
  {
    assert forall x :: x in journal + [f] <==> x in journal || x == f;
  }

  lemma ReenterKeeps(w: World)
    requires Inv(w)
    ensures Inv(Next(w, Reenter))
  {
    hide Facts, Nodes, HasIntent, HasOutcome;
    var w' := Next(w, Reenter);
    SameFacts(w, w');
    assert Loaded(w') == w.journal;
  }

  lemma StepKeeps(w: World, l: Label)
    requires Inv(w) && Enabled(w, l)
    ensures Inv(Next(w, l))
  {
    hide Inv, DoVisit, Finish, Move;
    match l
    case Visit(_, _, _, _, _) => VisitKeeps(w, l);
    case Prepare(slot, ok) => PrepareKeeps(w, slot, ok);
    case Record(slot, ok) => RecordKeeps(w, slot, ok);
    case Send(slot) => SendKeeps(w, slot);
    case Exit(slot, e) => ExitKeeps(w, slot, e);
    case Commit(slot, closed, ok) => CommitKeeps(w, slot, closed, ok);
    case Elsewhere(f) => ElsewhereKeeps(w, f);
    case Reenter => ReenterKeeps(w);
  }

  lemma RecordKeeps(w: World, slot: Slot, ok: bool)
    requires Inv(w) && Enabled(w, Record(slot, ok))
    ensures Inv(Next(w, Record(slot, ok)))
  {
    assert CallOk(w, slot, w.calls[slot]);
    if ok { QuietKeeps(w, slot, Started, w.dispatches); } else { FinishKeeps(w, slot, Return(w.calls[slot].node, FAILED, false)); }
  }

  lemma ExitKeeps(w: World, slot: Slot, e: Envelope)
    requires Inv(w) && Enabled(w, Exit(slot, e))
    ensures Inv(Next(w, Exit(slot, e)))
  {
    assert CallOk(w, slot, w.calls[slot]);
    QuietKeeps(w, slot, Done(e), w.dispatches);
  }

  predicate IsRun(w: World, run: seq<Label>)
    decreases run
  {
    run == [] || (Enabled(w, run[0]) && IsRun(Next(w, run[0]), run[1..]))
  }

  function After(w: World, run: seq<Label>): World
    requires IsRun(w, run)
    decreases run
  {
    if run == [] then w else After(Next(w, run[0]), run[1..])
  }

  lemma {:induction false} RunKeeps(w: World, run: seq<Label>)
    requires Inv(w) && IsRun(w, run)
    ensures Inv(After(w, run))
    decreases run
  {
    if run != [] {
      StepKeeps(w, run[0]);
      RunKeeps(Next(w, run[0]), run[1..]);
    }
  }

  // ---- the promises ----

  /** Every dispatch followed a committed intent of its node and carries exactly its identity, command and arguments,
  whatever the body asks for when it is entered again. */
  lemma DispatchFollowsIntent(run: seq<Label>)
    requires IsRun(INIT, run)
    ensures forall d | d in After(INIT, run).dispatches :: IntentOf(After(INIT, run).journal, d)
    ensures forall d, e | d in After(INIT, run).dispatches && e in After(INIT, run).dispatches && d.node == e.node :: d == e
  {
    RunKeeps(INIT, run);
    var w := After(INIT, run);
    forall d, e | d in w.dispatches && e in w.dispatches && d.node == e.node ensures d == e {
      var f :| f in w.journal && f.Intent? && f.node == d.node && f.command == d.command && f.args == d.args && f.identity == d.identity;
      var g :| g in w.journal && g.Intent? && g.node == e.node && g.command == e.command && g.args == e.args && g.identity == e.identity;
      OneIntent(w, f, g);
    }
  }

  lemma OneIntent(w: World, f: Fact, g: Fact)
    requires Facts(w) && f in w.journal && g in w.journal && f.Intent? && g.Intent? && f.node == g.node
    ensures f == g
  {
    var i :| 0 <= i < |w.journal| && w.journal[i] == f;
    var j :| 0 <= j < |w.journal| && w.journal[j] == g;
    assert i == j;
  }

  lemma OneOutcome(w: World, f: Fact, g: Fact)
    requires Facts(w) && f in w.journal && g in w.journal && f.Outcome? && g.Outcome? && f.node == g.node
    ensures f == g
  {
    var i :| 0 <= i < |w.journal| && w.journal[i] == f;
    var j :| 0 <= j < |w.journal| && w.journal[j] == g;
    assert i == j;
  }

  /** A node whose outcome is committed is never dispatched again. */
  lemma NeverDispatchedAgain(run: seq<Label>, slot: Slot)
    requires IsRun(INIT, run) && Enabled(After(INIT, run), Send(slot))
    ensures var w := After(INIT, run);
            !HasOutcome(w.journal, w.calls[slot].node) && HasIntent(w.journal, w.calls[slot].node)
  {
    RunKeeps(INIT, run);
    assert CallOk(After(INIT, run), slot, After(INIT, run).calls[slot]);
  }

  /** From the entry after its outcome was committed, a call of that node returns exactly what was recorded, at once. */
  lemma ReturnsRecorded(run: seq<Label>, l: Label, e: Envelope)
    requires IsRun(INIT, run) && l.Visit? && Enabled(After(INIT, run), l)
    requires Outcome(l.id, e) in After(INIT, run).journal
    ensures var w, w' := After(INIT, run), Next(After(INIT, run), l);
            w'.answers == w.answers + [Return(l.id, e, true)] && w'.calls == w.calls && w'.dispatches == w.dispatches
  {
    RunKeeps(INIT, run);
    var w := After(INIT, run);
    VisitIsNew(w, l);
    assert HasOutcome(w.journal, l.id);
    RecordedFacts(w, l.id);
    OneOutcome(w, Outcome(l.id, e), Outcome(l.id, Recorded(Loaded(w), l.id).value));
  }

  /** All results that were recorded for a node are the same. */
  lemma RecordedIsOne(run: seq<Label>, a: Return, b: Return)
    requires IsRun(INIT, run) && a in After(INIT, run).answers && b in After(INIT, run).answers
    requires a.recorded && b.recorded && a.node == b.node
    ensures a.envelope == b.envelope
  {
    RunKeeps(INIT, run);
    OneOutcome(After(INIT, run), Outcome(a.node, a.envelope), Outcome(b.node, b.envelope));
  }
}
