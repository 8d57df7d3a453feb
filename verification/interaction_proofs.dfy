/** What every run of the interaction protocol keeps. */
module InteractionProofs {
  import opened Wrappers
  import opened Interaction

  ghost predicate Distinct<T>(s: seq<T>) { forall i, j | 0 <= i < j < |s| :: s[i] != s[j] }

  /** The last word of the trace on an id is a steer whose effect nobody knows. */
  ghost predicate Doubt(trace: seq<Event>, id: Id) {
    if trace == [] then false
    else
      var last := trace[|trace| - 1];
      if last.Prompted? || last.Asked? || last.id != id then Doubt(trace[..|trace| - 1], id)
      else last.SteerSent? || last.Doubtful?
  }

  /** Nothing is ever sent to the harness while a steer of it is in doubt. */
  ghost predicate CleanSends(trace: seq<Event>) {
    forall i | 0 <= i < |trace| && IsSend(trace[i]) :: !Doubt(trace[..i], trace[i].id)
  }

  predicate IsSend(e: Event) { e.SteerSent? || e.Prompted? || e.Asked? }

  function ShownIds(messages: seq<Entry>): seq<Id> {
    if messages == [] then []
    else
      var last := messages[|messages| - 1];
      ShownIds(messages[..|messages| - 1]) + (if last.User? then [last.id] else [])
  }

  // ---- the invariant ----

  ghost predicate Ids(w: World) {
    && Distinct(w.order)
    && (forall id :: id in w.order <==> id in w.inputs)
    && (forall id | id in w.inputs :: w.inputs[id].id == id)
  }

  ghost predicate Lists(w: World) {
    && (forall n | n in w.states :: Distinct(w.states[n].consumed))
    && (forall n, id | ConsumedBy(w.states, n, id) :: id in w.inputs && w.inputs[id].content.address == n.address)
    && (forall n, m, id | ConsumedBy(w.states, n, id) && ConsumedBy(w.states, m, id) :: n == m)
  }

  /** As many turns as it takes: one, and one for each invalid answer and provider failure so far. */
  predicate GenOk(g: Gen) { g.turn == 1 + g.invalid + g.failures && g.invalid < INVALID && g.failures < FAILURES }

  /** Only prompts have turns; what is recorded is what replays; a turn that is being asked is not recorded. */
  ghost predicate Turns(w: World) {
    && (forall n, id, k | (n, id, k) in w.settled :: ConsumedBy(w.states, n, id) && Replays(w.settled[(n, id, k)]))
    && (forall n, id | (n, id) in w.gens :: ConsumedBy(w.states, n, id) && GenOk(w.gens[(n, id)])
          && (w.gens[(n, id)].stage.Running? ==> (n, id, w.gens[(n, id)].turn) !in w.settled))
  }

  ghost predicate Plain(c: Content) { !c.finish && !c.stop && !c.configure }

  ghost predicate ActiveOk(w: World, n: Node, id: Id) {
    && ConsumedBy(w.states, n, id) && id in w.inputs && Plain(w.inputs[id].content)
    && w.states[n].endedBy == Open && Prompted(n, id) in w.trace && !Doubt(w.trace, id)
    && w.inputs[id].disposition !in {Uncertain, Inflight}
  }

  ghost predicate Actives(w: World) {
    forall n | n in w.states && w.states[n].active.Some? :: ActiveOk(w, n, w.states[n].active.value)
  }

  ghost predicate EntryOk(w: World, n: Node, e: Input) {
    && e.id in w.inputs && w.inputs[e.id].content == e.content && e.content.address == n.address
    && !Consumed(w.states, e.id)
    && (e.disposition == Pending ==> !Doubt(w.trace, e.id) && forall m :: Landed(m, e.id) !in w.trace)
  }

  ghost predicate RestOk(w: World, n: Node, rest: seq<Input>) {
    && (forall i | 0 <= i < |rest| :: EntryOk(w, n, rest[i]))
    && (forall i, j | 0 <= i < j < |rest| :: rest[i].id != rest[j].id)
  }

  ghost predicate SendingOk(w: World, n: Node, e: Input, rest: seq<Input>) {
    && e.id in w.inputs && w.inputs[e.id].content == e.content && e.content.address == n.address
    && Plain(e.content) && !Consumed(w.states, e.id) && Doubt(w.trace, e.id)
    && (forall m :: Landed(m, e.id) !in w.trace)
    && (forall i | 0 <= i < |rest| :: rest[i].id != e.id)
  }

  ghost predicate LoopOk(w: World, at: Address, l: Loop) {
    && l.node.address == at && State(w, l.node).endedBy == Open
    && (!l.phase.Idle? ==> l.node in w.states && w.states[l.node].active.Some? && RestOk(w, l.node, l.phase.rest))
    && (l.phase.Sending? ==> SendingOk(w, l.node, l.phase.input, l.phase.rest))
  }

  ghost predicate Loops(w: World) { forall at | at in w.loops :: LoopOk(w, at, w.loops[at]) }

  ghost predicate LandedOk(w: World, n: Node, id: Id) {
    && id in w.inputs && w.inputs[id].content.address == n.address && Prompted(n, id) !in w.trace
    && (!Consumed(w.states, id) ==>
          && w.inputs[id].disposition in {Delivered, Unprocessed}
          && (w.inputs[id].disposition == Delivered ==> n in w.states && w.states[n].active.Some?))
  }

  ghost predicate Sends(w: World) {
    && (forall n, id | Prompted(n, id) in w.trace :: ConsumedBy(w.states, n, id))
    && (forall n, id | Landed(n, id) in w.trace :: LandedOk(w, n, id))
    && (forall id | Doubt(w.trace, id) :: id in w.inputs && w.inputs[id].disposition in {Inflight, Uncertain, Unprocessed})
    && (forall id | id in w.inputs && w.inputs[id].disposition == Delivered && !Consumed(w.states, id) ::
          exists m :: Landed(m, id) in w.trace)
    && CleanSends(w.trace)
  }

  ghost predicate Finishes(w: World) {
    forall n, id | ConsumedBy(w.states, n, id) && id in w.inputs && w.inputs[id].content.finish ::
      w.states[n].endedBy != Open || (w.states[n].unresolved && w.states[n].active.Some?)
  }

  ghost predicate ShownOk(s: Occurrence) {
    && Distinct(ShownIds(s.messages))
    && (forall id | id in ShownIds(s.messages) :: id in s.consumed)
    && (s.active.Some? && !s.published ==> s.active.value !in ShownIds(s.messages))
  }

  ghost predicate Transcripts(w: World) { forall n | n in w.states :: ShownOk(w.states[n]) }

  ghost predicate Inv(w: World) {
    Ids(w) && Lists(w) && Turns(w) && Actives(w) && Loops(w) && Sends(w) && Finishes(w) && Transcripts(w)
  }

  // ---- small facts ----

  lemma DoubtAfter(trace: seq<Event>, e: Event, id: Id)
    ensures Doubt(trace + [e], id) ==
            if e.Prompted? || e.Asked? || e.id != id then Doubt(trace, id) else e.SteerSent? || e.Doubtful?
  {
    assert (trace + [e])[..|trace|] == trace;
  }

  lemma CleanAfter(trace: seq<Event>, e: Event)
    requires CleanSends(trace) && (IsSend(e) ==> !Doubt(trace, e.id))
    ensures CleanSends(trace + [e])
  {
    forall i | 0 <= i < |trace + [e]| && IsSend((trace + [e])[i])
      ensures !Doubt((trace + [e])[..i], (trace + [e])[i].id)
    {
      assert (trace + [e])[..i] == trace[..i];
    }
  }

  lemma ShownAfter(messages: seq<Entry>, e: Entry)
    ensures ShownIds(messages + [e]) == ShownIds(messages) + (if e.User? then [e.id] else [])
  {
    assert (messages + [e])[..|messages|] == messages;
  }

  /** `q` is exactly the pending inputs among `ids`, each once. */
  ghost predicate IsQueue(w: World, at: Address, ids: seq<Id>, q: seq<Input>) {
    && (forall i | 0 <= i < |q| :: q[i].id in ids && IsPending(w, at, q[i].id) && q[i] == w.inputs[q[i].id])
    && (forall i, j | 0 <= i < j < |q| :: q[i].id != q[j].id)
    && (forall id | id in ids && IsPending(w, at, id) :: w.inputs[id] in q)
  }

  lemma {:induction false} QueueMembers(w: World, at: Address, ids: seq<Id>)
    requires (forall id | id in w.inputs :: w.inputs[id].id == id) && Distinct(ids)
    ensures IsQueue(w, at, ids, Queue(w, at, ids))
  {
    if ids != [] {
      var rest, tail := Queue(w, at, ids[1..]), ids[1..];
      QueueMembers(w, at, tail);
      assert ids == [ids[0]] + tail;
      forall i | 0 <= i < |rest| ensures rest[i].id != ids[0] && rest[i].id in ids {
        var j :| 0 <= j < |tail| && tail[j] == rest[i].id;
        assert ids[j + 1] == rest[i].id;
      }
      forall id | id in ids && IsPending(w, at, id) ensures w.inputs[id] in Queue(w, at, ids) {
        if id != ids[0] { assert id in tail; }
      }
    }
  }

  lemma {:induction false} FinishFound(q: seq<Input>)
    ensures FirstFinish(q).Some? ==> FirstFinish(q).value in q && FirstFinish(q).value.content.finish
    ensures FirstFinish(q).None? ==> forall i | 0 <= i < |q| :: !q[i].content.finish
  {
    if q != [] {
      FinishFound(q[1..]);
      assert q == [q[0]] + q[1..];
    }
  }

  ghost predicate Takes(e: Input) { e.content.finish || e.content.stop || e.disposition == Delivered }

  ghost predicate TakenFrom(q: seq<Input>, id: Id) { exists i :: 0 <= i < |q| && q[i].id == id && Takes(q[i]) }

  ghost predicate Settled(s: Occurrence, q: seq<Input>, t: Occurrence) {
    && s.consumed <= t.consumed && Distinct(t.consumed) && s.messages <= t.messages && ShownOk(t)
    && (forall id :: id in t.consumed <==> id in s.consumed || TakenFrom(q, id))
    && (s.unresolved ==> t.unresolved)
    && t.active == s.active && t.published == s.published && t.endedBy == s.endedBy && t.waiting == s.waiting
  }

  lemma TakenOne(e: Input, id: Id)
    ensures TakenFrom([e], id) <==> id == e.id && Takes(e)
  {
    assert [e][0] == e;
  }

  lemma DistinctAppend<T>(s: seq<T>, x: T)
    requires Distinct(s) && x !in s
    ensures Distinct(s + [x])
    ensures forall y :: y in s + [x] <==> y in s || y == x
  {
  }

  /** Showing one more consumed input. */
  lemma ShowOne(s: Occurrence, id: Id, text: string, t: Occurrence)
    requires ShownOk(s) && id !in s.consumed && s.active != Some(id)
    requires t == s.(consumed := s.consumed + [id], messages := s.messages + [User(id, text)])
    ensures ShownOk(t)
  {
    ShownAfter(s.messages, User(id, text));
    DistinctAppend(ShownIds(s.messages), id);
  }

  lemma SettleOneShows(s: Occurrence, e: Input)
    requires ShownOk(s) && e.id !in s.consumed && s.active != Some(e.id)
    ensures ShownOk(SettleOne(s, e))
  {
    var t := SettleOne(s, e);
    if t.messages != s.messages { ShowOne(s, e.id, e.content.message, t); }
  }

  lemma SettleOneFacts(s: Occurrence, e: Input)
    requires Distinct(s.consumed) && ShownOk(s) && e.id !in s.consumed && s.active != Some(e.id)
    ensures Settled(s, [e], SettleOne(s, e))
  {
    hide TakenFrom, ShownOk;
    SettleOneShows(s, e);
    forall id ensures TakenFrom([e], id) <==> id == e.id && Takes(e) { TakenOne(e, id); }
    DistinctAppend(s.consumed, e.id);
  }

  lemma SettledThen(s: Occurrence, e: Input, s': Occurrence, q: seq<Input>, t: Occurrence)
    requires Settled(s, [e], s') && Settled(s', q, t)
    ensures Settled(s, [e] + q, t)
  {
    var all := [e] + q;
    forall id ensures TakenFrom(all, id) <==> TakenFrom([e], id) || TakenFrom(q, id) {
      if TakenFrom([e], id) { assert all[0].id == id && Takes(all[0]); }
      if TakenFrom(q, id) {
        var i :| 0 <= i < |q| && q[i].id == id && Takes(q[i]);
        assert all[i + 1] == q[i];
      }
      if TakenFrom(all, id) {
        var i :| 0 <= i < |all| && all[i].id == id && Takes(all[i]);
        if i == 0 { assert [e][0] == e; } else { assert q[i - 1] == all[i]; }
      }
    }
  }

  /** What settling a queue consumes and shows. */
  lemma {:induction false} SettleFacts(s: Occurrence, q: seq<Input>)
    requires Distinct(s.consumed) && ShownOk(s)
    requires forall i | 0 <= i < |q| :: q[i].id !in s.consumed && s.active != Some(q[i].id)
    requires forall i, j | 0 <= i < j < |q| :: q[i].id != q[j].id
    ensures Settled(s, q, Settle(s, q))
    decreases q
  {
    if q != [] {
      SettleOneFacts(s, q[0]);
      var s' := SettleOne(s, q[0]);
      assert forall id :: TakenFrom([q[0]], id) ==> id == q[0].id;
      SettleFacts(s', q[1..]);
      SettledThen(s, q[0], s', q[1..], Settle(s', q[1..]));
      assert [q[0]] + q[1..] == q;
    }
  }

  // ---- each step keeps the invariant ----

  lemma ConsumedAfter(w: World, n: Node, s: Occurrence)
    requires State(w, n).consumed <= s.consumed
    ensures forall id :: Consumed(Commit(w, n, s).states, id) <==> Consumed(w.states, id) || id in s.consumed
    ensures forall m, id | m != n :: ConsumedBy(Commit(w, n, s).states, m, id) <==> ConsumedBy(w.states, m, id)
    ensures forall id :: ConsumedBy(Commit(w, n, s).states, n, id) <==> id in s.consumed
  {
    var w' := Commit(w, n, s);
    forall id ensures Consumed(w'.states, id) <==> Consumed(w.states, id) || id in s.consumed {
      if id in s.consumed { assert ConsumedBy(w'.states, n, id); }
      if Consumed(w.states, id) {
        var m :| ConsumedBy(w.states, m, id);
        assert ConsumedBy(w'.states, m, id);
      }
      if Consumed(w'.states, id) {
        var m :| ConsumedBy(w'.states, m, id);
        assert m == n || ConsumedBy(w.states, m, id);
      }
    }
  }

  ghost predicate Unlanded(trace: seq<Event>, id: Id) { forall m :: Landed(m, id) !in trace }

  lemma AcceptKeepsSends(w: World, id: Id, c: Content)
    requires Inv(w) && id !in w.inputs
    ensures Sends(w.(inputs := w.inputs[id := Input(id, c, Pending)], order := w.order + [id]))
  {
    var w' := w.(inputs := w.inputs[id := Input(id, c, Pending)], order := w.order + [id]);
    forall n, i | Landed(n, i) in w'.trace ensures LandedOk(w', n, i) { assert LandedOk(w, n, i); }
  }

  lemma AcceptKeepsLoops(w: World, id: Id, c: Content)
    requires Inv(w) && id !in w.inputs
    ensures Loops(w.(inputs := w.inputs[id := Input(id, c, Pending)], order := w.order + [id]))
  {
    var w' := w.(inputs := w.inputs[id := Input(id, c, Pending)], order := w.order + [id]);
    forall at | at in w'.loops ensures LoopOk(w', at, w'.loops[at]) {
      var l := w.loops[at];
      assert LoopOk(w, at, l);
      if !l.phase.Idle? {
        forall i | 0 <= i < |l.phase.rest| ensures EntryOk(w', l.node, l.phase.rest[i]) {
          assert EntryOk(w, l.node, l.phase.rest[i]);
        }
      }
    }
  }

  lemma AcceptKeeps(w: World, id: Id, c: Content, terminal: bool, turnMatches: bool)
    requires Inv(w)
    ensures Inv(DoAccept(w, id, c, terminal, turnMatches))
  {
    var w' := DoAccept(w, id, c, terminal, turnMatches);
    if w' != w {
      AcceptKeepsSends(w, id, c);
      AcceptKeepsLoops(w, id, c);
      DistinctAppend(w.order, id);
      forall m | m in w'.states && w'.states[m].active.Some? ensures ActiveOk(w', m, w'.states[m].active.value) {
        assert ActiveOk(w, m, w.states[m].active.value);
      }
    }
  }

  lemma ExitKeeps(w: World, at: Address)
    requires Inv(w)
    ensures Inv(Exit(w, at))
  {
    Relooped(w, Exit(w, at), at, Loop(Node(at, 0), Idle));
  }

  lemma PhaseKeeps(w: World, at: Address, n: Node, phase: Phase)
    requires Inv(w) && LoopOk(w, at, Loop(n, phase))
    ensures Inv(At(w, at, n, phase))
  {
    Relooped(w, At(w, at, n, phase), at, Loop(n, phase));
  }

  lemma EnterKeeps(w: World, n: Node)
    requires Inv(w) && n.address !in w.loops
    ensures Inv(DoEnter(w, n))
  {
    var e := w.(entered := w.entered + {n});
    forall b | b in e.loops ensures LoopOk(e, b, e.loops[b]) { assert LoopOk(w, b, w.loops[b]); }
    if State(w, n).endedBy == Open { PhaseKeeps(e, n.address, n, Idle); }
  }

  /** A snapshot of the queue is in order when it is taken. */
  lemma SnapshotOk(w: World, n: Node)
    requires Inv(w)
    ensures RestOk(w, n, PendingAt(w, n.address))
    ensures IsQueue(w, n.address, w.order, PendingAt(w, n.address))
  {
    QueueMembers(w, n.address, w.order);
    var q := PendingAt(w, n.address);
    forall i | 0 <= i < |q| ensures EntryOk(w, n, q[i]) {
      assert IsPending(w, n.address, q[i].id);
      if q[i].disposition == Pending {
        assert forall m | Landed(m, q[i].id) in w.trace :: LandedOk(w, m, q[i].id);
      }
    }
  }

  lemma WakeKeeps(w: World, at: Address)
    requires Inv(w) && at in w.loops && w.loops[at].phase == Turn([])
    ensures Inv(DoWake(w, at))
  {
    assert LoopOk(w, at, w.loops[at]);
    SnapshotOk(w, w.loops[at].node);
    PhaseKeeps(w, at, w.loops[at].node, Turn(PendingAt(w, at)));
  }

  /** The effect on the trace's promises of recording one delivery event of an unconsumed input. */
  ghost predicate Delivery(w: World, e: Event, d: Disposition) {
    match e
    case SteerSent(n, id) => d == Inflight && !Doubt(w.trace, id)
    case Landed(n, id) => d == Delivered && n in w.states && w.states[n].active.Some?
    case Dropped(n, id) => d == Pending
    case Doubtful(n, id) => d == Uncertain
    case _ => false
  }

  lemma TraceMember(trace: seq<Event>, e: Event)
    ensures forall x :: x in trace + [e] <==> x in trace || x == e
  {
  }

  lemma DoubtsAfter(trace: seq<Event>, e: Event)
    requires !e.Prompted? && !e.Asked?
    ensures forall id :: Doubt(trace + [e], id) == if id == e.id then e.SteerSent? || e.Doubtful? else Doubt(trace, id)
  {
    forall id { DoubtAfter(trace, e, id); }
  }

  lemma DeliveryKeepsLanded(w: World, input: Input, d: Disposition, e: Event)
    requires Inv(w) && input.id in w.inputs && w.inputs[input.id].content == input.content && e.id == input.id
    requires !Consumed(w.states, input.id) && Unlanded(w.trace, input.id) && Delivery(w, e, d)
    requires input.content.address == e.node.address
    ensures var w' := Emit(Put(w, input, d), e);
            && (forall n, id | Landed(n, id) in w'.trace :: LandedOk(w', n, id))
            && (forall id | id in w'.inputs && w'.inputs[id].disposition == Delivered && !Consumed(w'.states, id) ::
                  exists m :: Landed(m, id) in w'.trace)
  {
    var w' := Emit(Put(w, input, d), e);
    TraceMember(w.trace, e);
    forall n, id | Landed(n, id) in w'.trace ensures LandedOk(w', n, id) {
      if Landed(n, id) in w.trace {
        assert LandedOk(w, n, id) && id != e.id;
      } else {
        assert Prompted(n, id) in w.trace ==> ConsumedBy(w.states, n, id);
      }
    }
    forall id | id in w'.inputs && w'.inputs[id].disposition == Delivered && !Consumed(w'.states, id)
      ensures exists m :: Landed(m, id) in w'.trace
    {
      if id == e.id { assert Landed(e.node, id) in w'.trace; }
      else {
        var m :| Landed(m, id) in w.trace;
        assert Landed(m, id) in w'.trace;
      }
    }
  }

  lemma DeliveryKeepsSends(w: World, input: Input, d: Disposition, e: Event)
    requires Inv(w) && input.id in w.inputs && w.inputs[input.id].content == input.content && e.id == input.id
    requires !Consumed(w.states, input.id) && Unlanded(w.trace, input.id) && Delivery(w, e, d)
    requires input.content.address == e.node.address
    ensures Sends(Emit(Put(w, input, d), e))
  {
    CleanAfter(w.trace, e);
    DoubtsAfter(w.trace, e);
    TraceMember(w.trace, e);
    DeliveryKeepsLanded(w, input, d, e);
  }

  /** What the invariant says of other inputs and other addresses survives one delivery event. */
  lemma DeliveryKeepsOthers(w: World, input: Input, d: Disposition, e: Event)
    requires Inv(w) && input.id in w.inputs && w.inputs[input.id].content == input.content
    requires e.id == input.id && !e.Prompted? && !e.Asked? && !Consumed(w.states, input.id)
    ensures var w' := Emit(Put(w, input, d), e);
            && Ids(w') && Lists(w') && Actives(w') && Finishes(w') && Transcripts(w')
            && (forall n, x | EntryOk(w, n, x) && x.id != input.id :: EntryOk(w', n, x))
  {
    hide ShownOk, LoopOk, Replays, GenOk, CleanSends;
    var w' := Emit(Put(w, input, d), e);
    DoubtsAfter(w.trace, e);
    TraceMember(w.trace, e);
    forall m | m in w'.states && w'.states[m].active.Some? ensures ActiveOk(w', m, w'.states[m].active.value) {
      assert ActiveOk(w, m, w.states[m].active.value);
      assert Consumed(w.states, w.states[m].active.value);
    }
    forall n, x | EntryOk(w, n, x) && x.id != input.id ensures EntryOk(w', n, x) {
    }
  }

  lemma DeliveryKeepsLoops(w: World, input: Input, d: Disposition, e: Event, b: Address)
    requires Inv(w) && input.id in w.inputs && w.inputs[input.id].content == input.content
    requires e.id == input.id && !e.Prompted? && !e.Asked? && !Consumed(w.states, input.id)
    requires b in w.loops && b != input.content.address
    ensures LoopOk(Emit(Put(w, input, d), e), b, w.loops[b])
  {
    var w', l := Emit(Put(w, input, d), e), w.loops[b];
    assert LoopOk(w, b, l);
    DeliveryKeepsOthers(w, input, d, e);
    if !l.phase.Idle? {
      forall i | 0 <= i < |l.phase.rest| ensures EntryOk(w', l.node, l.phase.rest[i]) {
        assert EntryOk(w, l.node, l.phase.rest[i]);
      }
    }
    if l.phase.Sending? {
      DoubtsAfter(w.trace, e);
      TraceMember(w.trace, e);
    }
  }

  lemma DeliveryKeeps(w: World, at: Address, input: Input, d: Disposition, e: Event, phase: Phase)
    requires Inv(w) && at in w.loops && !w.loops[at].phase.Idle? && e.node == w.loops[at].node
    requires input.id in w.inputs && w.inputs[input.id].content == input.content && input.content.address == at
    requires e.id == input.id && !Consumed(w.states, input.id) && Unlanded(w.trace, input.id) && Delivery(w, e, d)
    requires !phase.Idle? && RestOk(w, e.node, phase.rest) && forall i | 0 <= i < |phase.rest| :: phase.rest[i].id != input.id
    requires phase.Sending? ==> e.SteerSent? && Plain(input.content) && phase.input.id == input.id && phase.input.content == input.content
    ensures Inv(Emit(At(Put(w, input, d), at, e.node, phase), e))
  {
    var n, w1 := e.node, Emit(Put(w, input, d), e);
    assert LoopOk(w, at, w.loops[at]);
    DeliveryKeepsSends(w, input, d, e);
    DeliveryKeepsOthers(w, input, d, e);
    DeliveryKeepsOwn(w, at, input, d, e, phase);
    forall b | b in w.loops && b != at ensures LoopOk(w1, b, w.loops[b]) { DeliveryKeepsLoops(w, input, d, e, b); }
    Relooped(w1, At(w1, at, n, phase), at, Loop(n, phase));
  }

  lemma DeliveryKeepsOwn(w: World, at: Address, input: Input, d: Disposition, e: Event, phase: Phase)
    requires Inv(w) && at in w.loops && !w.loops[at].phase.Idle? && e.node == w.loops[at].node
    requires input.id in w.inputs && w.inputs[input.id].content == input.content && input.content.address == at
    requires e.id == input.id && !Consumed(w.states, input.id) && Unlanded(w.trace, input.id) && Delivery(w, e, d)
    requires !phase.Idle? && RestOk(w, e.node, phase.rest) && forall i | 0 <= i < |phase.rest| :: phase.rest[i].id != input.id
    requires phase.Sending? ==> e.SteerSent? && Plain(input.content) && phase.input.id == input.id && phase.input.content == input.content
    ensures LoopOk(Emit(Put(w, input, d), e), at, Loop(e.node, phase))
  {
    var n, w1 := e.node, Emit(Put(w, input, d), e);
    assert LoopOk(w, at, w.loops[at]);
    DeliveryKeepsOthers(w, input, d, e);
    forall i | 0 <= i < |phase.rest| ensures EntryOk(w1, n, phase.rest[i]) {
      assert EntryOk(w, n, phase.rest[i]);
    }
    if phase.Sending? {
      TraceMember(w.trace, e);
      DoubtsAfter(w.trace, e);
    }
  }

  /** The invariant but for the loops. */
  ghost predicate Durable(w: World) {
    Ids(w) && Lists(w) && Turns(w) && Actives(w) && Sends(w) && Finishes(w) && Transcripts(w)
  }

  lemma SameDurable(w: World, w': World)
    requires Durable(w) && w'.states == w.states && w'.inputs == w.inputs && w'.order == w.order && w'.trace == w.trace
    requires w'.settled == w.settled && (w'.gens == w.gens || w'.gens == map[])
    ensures Durable(w')
  {
    assert Actives(w') by {
      forall m | m in w'.states && w'.states[m].active.Some? ensures ActiveOk(w', m, w'.states[m].active.value) {
        assert ActiveOk(w, m, w.states[m].active.value);
      }
    }
    assert Sends(w') by {
      forall n, id | Landed(n, id) in w'.trace ensures LandedOk(w', n, id) { assert LandedOk(w, n, id); }
    }
  }

  /** Replacing one loop, or removing it. */
  lemma Relooped(w: World, w': World, at: Address, l: Loop)
    requires Durable(w) && (forall b | b in w.loops && b != at :: LoopOk(w, b, w.loops[b]))
    requires w'.states == w.states && w'.inputs == w.inputs && w'.order == w.order && w'.trace == w.trace
    requires w'.settled == w.settled && (w'.gens == w.gens || w'.gens == map[])
    requires w'.loops == w.loops - {at} || (LoopOk(w, at, l) && w'.loops == w.loops[at := l])
    ensures Inv(w')
  {
    SameDurable(w, w');
    forall b | b in w'.loops ensures LoopOk(w', b, w'.loops[b]) {
      assert LoopOk(w, b, w'.loops[b]);
      SameLoop(w, w', b, w'.loops[b]);
    }
  }

  lemma SameLoop(w: World, w': World, at: Address, l: Loop)
    requires LoopOk(w, at, l) && w'.states == w.states && w'.inputs == w.inputs && w'.trace == w.trace
    ensures LoopOk(w', at, l)
  {
    if !l.phase.Idle? {
      forall i | 0 <= i < |l.phase.rest| ensures EntryOk(w', l.node, l.phase.rest[i]) {
        assert EntryOk(w, l.node, l.phase.rest[i]);
      }
    }
  }

  lemma SteerKeeps(w: World, at: Address, recorded: bool)
    requires Inv(w) && at in w.loops && w.loops[at].phase.Turn? && w.loops[at].phase.rest != []
    ensures Inv(DoSteer(w, at, recorded))
  {
    var Loop(n, Turn(rest)) := w.loops[at];
    var input, tail := rest[0], rest[1..];
    assert LoopOk(w, at, w.loops[at]) && EntryOk(w, n, input);
    assert RestOk(w, n, tail) by {
      forall i | 0 <= i < |tail| ensures EntryOk(w, n, tail[i]) && tail[i].id != input.id {
        assert tail[i] == rest[i + 1] && rest[0].id != rest[i + 1].id;
      }
    }
    if !Plain(input.content) || input.disposition != Pending {
      PhaseKeeps(w, at, n, Turn(tail));
    } else if !recorded {
      ExitKeeps(w, at);
    } else {
      DeliveryKeeps(w, at, input, Inflight, SteerSent(n, input.id), Sending(input, tail));
    }
  }

  lemma AnswerKeeps(w: World, at: Address, landed: bool, failed: bool, recorded: bool)
    requires Inv(w) && at in w.loops && w.loops[at].phase.Sending?
    ensures Inv(DoAnswer(w, at, landed, failed, recorded))
  {
    var Loop(n, Sending(input, rest)) := w.loops[at];
    assert LoopOk(w, at, w.loops[at]) && SendingOk(w, n, input, rest);
    if !recorded {
      ExitKeeps(w, at);
    } else if failed {
      DeliveryKeeps(w, at, input, Uncertain, Doubtful(n, input.id), Turn(rest));
    } else if landed {
      DeliveryKeeps(w, at, input, Delivered, Landed(n, input.id), Turn(rest));
    } else {
      DeliveryKeeps(w, at, input, Pending, Dropped(n, input.id), Turn(rest));
    }
  }

  lemma CloseKeepsLoops(w: World, scope: string, count: nat)
    requires Inv(w)
    ensures Loops(DoClose(w, scope, count))
  {
    var w' := DoClose(w, scope, count);
    forall b | b in w'.loops ensures LoopOk(w', b, w'.loops[b]) {
      assert LoopOk(w, b, w.loops[b]);
      if !w.loops[b].phase.Idle? {
        var rest := w.loops[b].phase.rest;
        forall i | 0 <= i < |rest| ensures EntryOk(w', w.loops[b].node, rest[i]) {
          assert EntryOk(w, w.loops[b].node, rest[i]);
        }
      }
    }
  }

  lemma CloseKeepsSends(w: World, scope: string, count: nat)
    requires Inv(w)
    ensures Sends(DoClose(w, scope, count))
  {
    var w' := DoClose(w, scope, count);
    forall n, id | Landed(n, id) in w'.trace ensures LandedOk(w', n, id) { assert LandedOk(w, n, id); }
  }

  lemma CloseKeeps(w: World, scope: string, count: nat)
    requires Inv(w)
    ensures Inv(DoClose(w, scope, count))
  {
    var w' := DoClose(w, scope, count);
    CloseKeepsLoops(w, scope, count);
    CloseKeepsSends(w, scope, count);
    forall m | m in w'.states && w'.states[m].active.Some? ensures ActiveOk(w', m, w'.states[m].active.value) {
      assert ActiveOk(w, m, w.states[m].active.value);
    }
  }

  lemma CrashKeeps(w: World)
    requires Inv(w)
    ensures Inv(w.(loops := map[], entered := {}, gens := map[]))
  {
  }

  lemma EndScopeKeeps(w: World, scope: string)
    requires Inv(w)
    ensures Inv(w.(ended := w.ended + {scope}))
  {
    var w' := w.(ended := w.ended + {scope});
    forall b | b in w'.loops ensures LoopOk(w', b, w'.loops[b]) { assert LoopOk(w, b, w.loops[b]); }
  }

  /** What a committed occurrence must keep of the one before it. */
  ghost predicate Commits(w: World, n: Node, s: Occurrence) {
    var was := State(w, n);
    && was.consumed <= s.consumed && Distinct(s.consumed) && ShownOk(s)
    && (forall id | id in s.consumed && id !in was.consumed ::
          id in w.inputs && w.inputs[id].content.address == n.address && !Consumed(w.states, id))
    && (s.active.Some? ==> s.active == was.active && s.endedBy == Open)
    && (forall id | id in s.consumed && id in w.inputs && w.inputs[id].content.finish ::
          s.endedBy != Open || (s.unresolved && s.active.Some?))
    && (s.active.None? ==> forall id | Landed(n, id) in w.trace && id in w.inputs && !Consumed(w.states, id) &&
          w.inputs[id].disposition == Delivered :: id in s.consumed)
  }

  lemma CommitKeepsOwners(w: World, n: Node, s: Occurrence)
    requires Durable(w) && Commits(w, n, s)
    ensures Lists(Commit(w, n, s))
  {
    var w' := Commit(w, n, s);
    ConsumedAfter(w, n, s);
    assert forall id :: id in State(w, n).consumed <==> ConsumedBy(w.states, n, id);
    assert forall m, id :: ConsumedBy(w.states, m, id) ==> Consumed(w.states, id);
    assert forall m, l, id | ConsumedBy(w'.states, m, id) && ConsumedBy(w'.states, l, id) :: m == l;
  }

  lemma CommitKeepsLists(w: World, n: Node, s: Occurrence)
    requires Durable(w) && Commits(w, n, s)
    ensures Lists(Commit(w, n, s)) && Finishes(Commit(w, n, s)) && Transcripts(Commit(w, n, s)) && Actives(Commit(w, n, s))
  {
    var w' := Commit(w, n, s);
    CommitKeepsOwners(w, n, s);
    ConsumedAfter(w, n, s);
    forall m | m in w'.states && w'.states[m].active.Some? ensures ActiveOk(w', m, w'.states[m].active.value) {
      assert m in w.states && ActiveOk(w, m, w.states[m].active.value);
    }
  }

  lemma CommitKeepsSends(w: World, n: Node, s: Occurrence)
    requires Durable(w) && Commits(w, n, s)
    ensures Sends(Commit(w, n, s)) && Turns(Commit(w, n, s))
  {
    var w' := Commit(w, n, s);
    ConsumedAfter(w, n, s);
    forall m, id, k | (m, id, k) in w'.settled ensures ConsumedBy(w'.states, m, id) { assert ConsumedBy(w.states, m, id); }
    forall m, id | (m, id) in w'.gens ensures ConsumedBy(w'.states, m, id) { assert ConsumedBy(w.states, m, id); }
    forall m, id | Prompted(m, id) in w'.trace ensures ConsumedBy(w'.states, m, id) {
      assert ConsumedBy(w.states, m, id);
    }
    forall m, id | Landed(m, id) in w'.trace ensures LandedOk(w', m, id) { assert LandedOk(w, m, id); }
  }

  lemma CommitKeepsLoop(w: World, n: Node, s: Occurrence, b: Address)
    requires Inv(w) && Commits(w, n, s) && b in w.loops && b != n.address
    ensures LoopOk(Commit(w, n, s), b, w.loops[b])
  {
    var w', l := Commit(w, n, s), w.loops[b];
    ConsumedAfter(w, n, s);
    assert LoopOk(w, b, l);
    if !l.phase.Idle? {
      forall i | 0 <= i < |l.phase.rest| ensures EntryOk(w', l.node, l.phase.rest[i]) {
        assert EntryOk(w, l.node, l.phase.rest[i]);
        assert !ConsumedBy(w.states, n, l.phase.rest[i].id);
      }
    }
    if l.phase.Sending? {
      assert !ConsumedBy(w.states, n, l.phase.input.id);
    }
  }

  /** Committing at a loop that then goes idle or ends. */
  lemma CommitKeeps(w: World, n: Node, s: Occurrence)
    requires Inv(w) && Commits(w, n, s)
    ensures Inv(Exit(Commit(w, n, s), n.address))
    ensures s.endedBy == Open ==> Inv(At(Commit(w, n, s), n.address, n, Idle))
  {
    var w' := Commit(w, n, s);
    CommitKeepsLists(w, n, s);
    CommitKeepsSends(w, n, s);
    forall b | b in w'.loops && b != n.address ensures LoopOk(w', b, w'.loops[b]) { CommitKeepsLoop(w, n, s, b); }
    Relooped(w', Exit(w', n.address), n.address, Loop(n, Idle));
    if s.endedBy == Open { Relooped(w', At(w', n.address, n, Idle), n.address, Loop(n, Idle)); }
  }

  /** The world in which a prompt was just committed and sent for an occurrence already stored. */
  function Prompting(w: World, n: Node, id: Id): World
    requires n in w.states
  {
    Emit(Commit(w, n, w.states[n].(active := Some(id))), Prompted(n, id))
  }

  ghost predicate MayPrompt(w: World, n: Node, id: Id) {
    && n in w.states && id in w.states[n].consumed && id in w.inputs && Plain(w.inputs[id].content)
    && w.inputs[id].disposition !in {Uncertain, Inflight}
    && w.states[n].endedBy == Open && !Doubt(w.trace, id) && Landed(n, id) !in w.trace
    && (!w.states[n].published ==> id !in ShownIds(w.states[n].messages))
  }

  lemma PromptingFacts(w: World, n: Node, id: Id)
    requires n in w.states
    ensures var w' := Prompting(w, n, id);
            && (forall m, i :: ConsumedBy(w'.states, m, i) <==> ConsumedBy(w.states, m, i))
            && (forall i :: Consumed(w'.states, i) <==> Consumed(w.states, i))
            && (forall i :: Doubt(w'.trace, i) == Doubt(w.trace, i))
            && (forall x :: x in w'.trace <==> x in w.trace || x == Prompted(n, id))
  {
    var w' := Prompting(w, n, id);
    TraceMember(w.trace, Prompted(n, id));
    forall i ensures Doubt(w'.trace, i) == Doubt(w.trace, i) { DoubtAfter(w.trace, Prompted(n, id), i); }
    forall i ensures Consumed(w'.states, i) <==> Consumed(w.states, i) {
      if Consumed(w.states, i) { var m :| ConsumedBy(w.states, m, i); assert ConsumedBy(w'.states, m, i); }
      if Consumed(w'.states, i) { var m :| ConsumedBy(w'.states, m, i); assert ConsumedBy(w.states, m, i); }
    }
  }

  lemma PromptingKeepsSends(w: World, n: Node, id: Id)
    requires Durable(w) && MayPrompt(w, n, id)
    ensures Sends(Prompting(w, n, id))
  {
    var w' := Prompting(w, n, id);
    PromptingFacts(w, n, id);
    CleanAfter(w.trace, Prompted(n, id));
    forall m, i | Landed(m, i) in w'.trace ensures LandedOk(w', m, i) { assert LandedOk(w, m, i); }
    forall i | i in w'.inputs && w'.inputs[i].disposition == Delivered && !Consumed(w'.states, i)
      ensures exists m :: Landed(m, i) in w'.trace
    {
      var m :| Landed(m, i) in w.trace;
      assert Landed(m, i) in w'.trace;
    }
  }

  lemma PromptingKeeps(w: World, n: Node, id: Id)
    requires Durable(w) && MayPrompt(w, n, id)
    ensures Durable(Prompting(w, n, id))
  {
    var w' := Prompting(w, n, id);
    PromptingFacts(w, n, id);
    PromptingKeepsSends(w, n, id);
    forall m | m in w'.states && w'.states[m].active.Some? ensures ActiveOk(w', m, w'.states[m].active.value) {
      if m != n { assert ActiveOk(w, m, w.states[m].active.value); }
    }
    forall m, i | ConsumedBy(w'.states, m, i) && w'.inputs[i].content.finish
      ensures w'.states[m].endedBy != Open || (w'.states[m].unresolved && w'.states[m].active.Some?)
    {
      assert ConsumedBy(w.states, m, i);
    }
  }

  lemma PromptingKeepsLoop(w: World, n: Node, id: Id, b: Address)
    requires n in w.states && b in w.loops && b != n.address && LoopOk(w, b, w.loops[b])
    ensures LoopOk(Prompting(w, n, id), b, w.loops[b])
  {
    PromptingFacts(w, n, id);
    var w', l := Prompting(w, n, id), w.loops[b];
    if !l.phase.Idle? {
      forall i | 0 <= i < |l.phase.rest| ensures EntryOk(w', l.node, l.phase.rest[i]) {
        assert EntryOk(w, l.node, l.phase.rest[i]);
      }
    }
  }

  /** Committing an occurrence together with its next prompt, which is then sent. `s` is the occurrence
  but for its active input. */
  lemma PromptKeeps(w: World, n: Node, s: Occurrence, id: Id)
    requires Inv(w) && Commits(w, n, s) && MayPrompt(Commit(w, n, s), n, id)
    ensures Inv(Emit(At(Commit(w, n, s.(active := Some(id))), n.address, n, Turn([])), Prompted(n, id)))
  {
    var w0 := Commit(w, n, s);
    CommitDurable(w, n, s);
    PromptingKeeps(w0, n, id);
    var w1 := Prompting(w0, n, id);
    forall b | b in w1.loops && b != n.address ensures LoopOk(w1, b, w1.loops[b]) {
      CommitKeepsLoop(w, n, s, b);
      PromptingKeepsLoop(w0, n, id, b);
    }
    PromptedLoop(w0, n, id);
    Relooped(w1, At(w1, n.address, n, Turn([])), n.address, Loop(n, Turn([])));
    PromptingForm(w, n, s, id);
  }

  lemma PromptingForm(w: World, n: Node, s: Occurrence, id: Id)
    ensures Emit(At(Commit(w, n, s.(active := Some(id))), n.address, n, Turn([])), Prompted(n, id)) ==
            At(Prompting(Commit(w, n, s), n, id), n.address, n, Turn([]))
  {
  }

  lemma CommitDurable(w: World, n: Node, s: Occurrence)
    requires Inv(w) && Commits(w, n, s)
    ensures Durable(Commit(w, n, s))
  {
    CommitKeepsLists(w, n, s);
    CommitKeepsSends(w, n, s);
  }

  lemma PromptedLoop(w: World, n: Node, id: Id)
    requires MayPrompt(w, n, id)
    ensures LoopOk(Prompting(w, n, id), n.address, Loop(n, Turn([])))
  {
  }

  // ---- the two long steps ----

  lemma ActiveIsSafe(w: World, n: Node)
    requires Inv(w) && n in w.states && w.states[n].active.Some?
    ensures var id := w.states[n].active.value;
            ActiveOk(w, n, id) && Landed(n, id) !in w.trace && w.inputs[id].id == id
  {
    var id := w.states[n].active.value;
    assert ActiveOk(w, n, id);
    assert Landed(n, id) in w.trace ==> LandedOk(w, n, id);
  }

  /** A pending input with no doubt about it was never steered into an occurrence that is between turns. */
  lemma PendingIsSafe(w: World, n: Node, id: Id)
    requires Inv(w) && State(w, n).active.None? && IsPending(w, n.address, id)
    requires w.inputs[id].disposition !in {Uncertain, Inflight}
    ensures !Doubt(w.trace, id) && Landed(n, id) !in w.trace && id !in State(w, n).consumed
  {
    assert Landed(n, id) in w.trace ==> LandedOk(w, n, id);
    assert id in State(w, n).consumed ==> ConsumedBy(w.states, n, id);
  }

  /** Taking one pending input off the queue between turns. */
  lemma TakeCommits(w: World, n: Node, id: Id, s: Occurrence)
    requires Inv(w) && State(w, n).active.None? && IsPending(w, n.address, id) && State(w, n).endedBy == Open
    requires s.consumed == State(w, n).consumed + [id] && s.messages == State(w, n).messages && s.active.None?
    requires w.inputs[id].content.finish ==> s.endedBy != Open
    ensures Commits(w, n, s)
  {
    var was := State(w, n);
    assert id in was.consumed ==> ConsumedBy(w.states, n, id);
    DistinctAppend(was.consumed, id);
    assert n in w.states ==> ShownOk(was);
    assert forall i | i in was.consumed :: ConsumedBy(w.states, n, i);
    assert forall i | Landed(n, i) in w.trace :: LandedOk(w, n, i);
  }

  lemma FinishKeeps(w: World, at: Address, configured: bool, committed: bool)
    requires Inv(w) && at in w.loops && w.loops[at].phase.Idle?
    requires State(w, w.loops[at].node).active.None? && FirstFinish(PendingAt(w, at)).Some?
    ensures Inv(DoLook(w, at, configured, committed))
  {
    var n := w.loops[at].node;
    var s, q := State(w, n), PendingAt(w, at);
    assert LoopOk(w, at, w.loops[at]);
    ExitKeeps(w, at);
    SnapshotOk(w, n);
    FinishFound(q);
    var f := FirstFinish(q).value;
    var i :| 0 <= i < |q| && q[i] == f;
    assert IsPending(w, n.address, f.id);
    var s' := s.(consumed := s.consumed + [f.id], endedBy := ByHuman, waiting := false);
    TakeCommits(w, n, f.id, s');
    CommitKeeps(w, n, s');
  }

  lemma LookKeeps(w: World, at: Address, configured: bool, committed: bool)
    requires Inv(w) && at in w.loops && w.loops[at].phase.Idle?
    ensures Inv(DoLook(w, at, configured, committed))
  {
    var n := w.loops[at].node;
    var s := State(w, n);
    assert LoopOk(w, at, w.loops[at]);
    if s.active.Some? {
      ContinueKeeps(w, at, configured, committed);
    } else if FirstFinish(PendingAt(w, at)).Some? {
      FinishKeeps(w, at, configured, committed);
    } else if PendingAt(w, at) == [] {
      ExitKeeps(w, at);
      SameCommits(w, n, s.(waiting := true));
      CommitKeeps(w, n, s.(waiting := true));
    } else {
      FirstKeeps(w, at, configured, committed);
    }
  }

  /** Rewriting flags that the invariant does not read, or raising `unresolved`. */
  lemma SameCommits(w: World, n: Node, s: Occurrence)
    requires Inv(w) && State(w, n).endedBy == Open
    requires s == State(w, n).(waiting := s.waiting, unresolved := s.unresolved)
    requires State(w, n).unresolved ==> s.unresolved
    ensures Commits(w, n, s)
  {
    assert n in w.states ==> ShownOk(w.states[n]);
    assert forall i | i in s.consumed :: ConsumedBy(w.states, n, i);
    assert forall i | Landed(n, i) in w.trace :: LandedOk(w, n, i);
    assert s.active.Some? ==> ActiveOk(w, n, s.active.value);
  }

  lemma ContinueKeeps(w: World, at: Address, configured: bool, committed: bool)
    requires Inv(w) && at in w.loops && w.loops[at].phase.Idle? && State(w, w.loops[at].node).active.Some?
    ensures Inv(DoLook(w, at, configured, committed))
  {
    hide Durable, Commits, LoopOk, Turns, Lists, Finishes, Ids;
    var n := w.loops[at].node;
    var s := State(w, n);
    LoopIsOpen(w, at);
    ActiveIsSafe(w, n);
    ExitKeeps(w, at);
    if w.inputs[s.active.value].disposition in {Uncertain, Inflight} {
      SameCommits(w, n, s.(unresolved := true));
      CommitKeeps(w, n, s.(unresolved := true));
    } else if committed {
      var s' := s.(waiting := false);
      SameCommits(w, n, s');
      assert ShownOk(s);
      assert s'.(active := Some(s.active.value)) == s';
      PromptKeeps(w, n, s', s.active.value);
      DispatchKeeps(w, n, s', s.active.value);
    }
  }

  lemma LoopIsOpen(w: World, at: Address)
    requires Inv(w) && at in w.loops
    ensures w.loops[at].node.address == at && State(w, w.loops[at].node).endedBy == Open
  {
    assert LoopOk(w, at, w.loops[at]);
  }

  /** The head of the queue between turns: refused, taken, or made the next prompt. */
  lemma FirstKeeps(w: World, at: Address, configured: bool, committed: bool)
    requires Inv(w) && at in w.loops && w.loops[at].phase.Idle?
    requires State(w, w.loops[at].node).active.None? && PendingAt(w, at) != [] && FirstFinish(PendingAt(w, at)).None?
    ensures Inv(DoLook(w, at, configured, committed))
  {
    hide Inv, Dispatch, Commits;
    var n := w.loops[at].node;
    var s, q := State(w, n), PendingAt(w, at);
    LoopIsOpen(w, at);
    ExitKeeps(w, at);
    SnapshotOk(w, n);
    FinishFound(q);
    var e := q[0];
    assert IsPending(w, at, e.id) && e == w.inputs[e.id] && !e.content.finish;
    if e.disposition in {Uncertain, Inflight} {
      SameCommits(w, n, s.(unresolved := true));
      CommitKeeps(w, n, s.(unresolved := true));
    } else if !Plain(e.content) {
      var taken := s.(consumed := s.consumed + [e.id]);
      TakeCommits(w, n, e.id, taken);
      CommitKeeps(w, n, taken);
    } else {
      NextPrompt(w, n, e.id);
    }
  }

  /** The generation that begins with a prompt. */
  lemma DispatchKeeps(w: World, n: Node, s: Occurrence, id: Id)
    requires Inv(Emit(At(Commit(w, n, s.(active := Some(id))), n.address, n, Turn([])), Prompted(n, id)))
    ensures Inv(Dispatch(At(Commit(w, n, s.(active := Some(id))), n.address, n, Turn([])), n, id))
  {
    hide Inv;
    var v := Emit(At(Commit(w, n, s.(active := Some(id))), n.address, n, Turn([])), Prompted(n, id));
    GenKeeps(v, n, id);
  }

  lemma GenKeeps(v: World, n: Node, id: Id)
    requires Inv(v) && n in v.states && v.states[n].active == Some(id)
    ensures Inv(Advance(v, (n, id), START))
  {
    assert ActiveOk(v, n, id);
    SameInv(v, Advance(v, (n, id), START));
  }

  lemma NextPrompt(w: World, n: Node, id: Id)
    requires Inv(w) && State(w, n).active.None? && IsPending(w, n.address, id) && State(w, n).endedBy == Open
    requires w.inputs[id].disposition !in {Uncertain, Inflight} && Plain(w.inputs[id].content)
    ensures var s' := State(w, n).(consumed := State(w, n).consumed + [id], active := Some(id), published := false, waiting := false);
            Inv(Dispatch(At(Commit(w, n, s'), n.address, n, Turn([])), n, id))
  {
    hide Durable, Commits;
    var s := State(w, n);
    var s' := s.(consumed := s.consumed + [id], published := false, waiting := false);
    PendingIsSafe(w, n, id);
    TakeCommits(w, n, id, s');
    assert n in w.states ==> ShownOk(s);
    assert id !in ShownIds(s.messages);
    PromptKeeps(w, n, s', id);
    DispatchKeeps(w, n, s', id);
  }

  /** The active input's own disposition may change when its turn completes. */
  lemma ActivePutKeeps(w: World, n: Node, d: Disposition)
    requires Inv(w) && n in w.states && w.states[n].active.Some? && d !in {Uncertain, Inflight}
    ensures w.states[n].active.value in w.inputs
    ensures Inv(Put(w, w.inputs[w.states[n].active.value], d))
  {
    hide LoopOk, Ids, Lists, Turns, Finishes, Transcripts, Actives, Sends;
    ActiveIsSafe(w, n);
    var id := w.states[n].active.value;
    var w1 := Put(w, w.inputs[id], d);
    assert ConsumedBy(w.states, n, id);
    ActivePutKeepsSends(w, n, id, d);
    ActivePutKeepsLists(w, id, d);
    forall b | b in w1.loops ensures LoopOk(w1, b, w1.loops[b]) { ActivePutKeepsLoop(w, w1, id, b); }
  }

  lemma ActivePutKeepsLists(w: World, id: Id, d: Disposition)
    requires Inv(w) && id in w.inputs && w.inputs[id].id == id
    ensures var w1 := Put(w, w.inputs[id], d); Ids(w1) && Lists(w1) && Turns(w1) && Finishes(w1) && Transcripts(w1)
  {
    hide Loops, Sends, Actives, ShownOk, Replays, GenOk;
  }

  lemma ActivePutKeepsSends(w: World, n: Node, id: Id, d: Disposition)
    requires Inv(w) && ActiveOk(w, n, id) && Landed(n, id) !in w.trace && w.inputs[id].id == id
    requires Consumed(w.states, id) && d !in {Uncertain, Inflight}
    ensures Sends(Put(w, w.inputs[id], d)) && Actives(Put(w, w.inputs[id], d))
  {
    hide LoopOk, Lists, Turns, Finishes, Transcripts, CleanSends;
    var w1 := Put(w, w.inputs[id], d);
    forall m | m in w1.states && w1.states[m].active.Some? ensures ActiveOk(w1, m, w1.states[m].active.value) {
      assert ActiveOk(w, m, w.states[m].active.value);
    }
    forall m, i | Landed(m, i) in w1.trace ensures LandedOk(w1, m, i) { assert LandedOk(w, m, i); }
  }

  lemma ActivePutKeepsLoop(w: World, w1: World, id: Id, b: Address)
    requires b in w.loops && LoopOk(w, b, w.loops[b]) && Consumed(w.states, id) && id in w.inputs
    requires exists d :: w1 == Put(w, w.inputs[id], d)
    requires w.inputs[id].id == id
    ensures LoopOk(w1, b, w1.loops[b])
  {
    var l := w.loops[b];
    if !l.phase.Idle? {
      forall i | 0 <= i < |l.phase.rest| ensures EntryOk(w1, l.node, l.phase.rest[i]) {
        assert EntryOk(w, l.node, l.phase.rest[i]);
      }
    }
  }

  lemma PublishedOk(s: Occurrence, input: Input, publish: bool)
    requires ShownOk(s) && s.active == Some(input.id) && input.id in s.consumed && (publish ==> !s.published)
    ensures ShownOk(Published(s, input, publish))
  {
    ShownAfter(s.messages, User(input.id, input.content.message));
    if publish { DistinctAppend(ShownIds(s.messages), input.id); }
  }

  /** What a settled queue leaves, in terms of the world. */
  ghost predicate SettledIn(w: World, n: Node, s: Occurrence, q: seq<Input>, t: Occurrence) {
    && s.consumed <= t.consumed && Distinct(t.consumed) && ShownOk(t)
    && (forall id | id in t.consumed && id !in s.consumed ::
          && id in w.inputs && w.inputs[id].content.address == n.address && !Consumed(w.states, id)
          && (w.inputs[id].content.finish ==> FirstFinish(q).Some?))
    && (forall id | Landed(n, id) in w.trace && id in w.inputs && !Consumed(w.states, id) &&
          w.inputs[id].disposition == Delivered :: id in t.consumed)
    && (s.unresolved ==> t.unresolved) && t.active == s.active && t.endedBy == s.endedBy && t.published == s.published
  }

  lemma SettleInWorld(w: World, n: Node, s: Occurrence, q: seq<Input>)
    requires Inv(w) && n in w.states && w.states[n].active.Some?
    requires IsQueue(w, n.address, w.order, q) && ShownOk(s)
    requires s == w.states[n].(messages := s.messages, published := s.published)
    ensures SettledIn(w, n, s, q, Settle(s, q))
  {
    var t := Settle(s, q);
    assert forall i | i in s.consumed :: ConsumedBy(w.states, n, i);
    forall i | 0 <= i < |q| ensures q[i].id !in s.consumed && s.active != Some(q[i].id) {
      assert IsPending(w, n.address, q[i].id);
      assert ActiveOk(w, n, w.states[n].active.value);
    }
    SettleFacts(s, q);
    FinishFound(q);
    forall id | id in t.consumed && id !in s.consumed
      ensures id in w.inputs && w.inputs[id].content.address == n.address && !Consumed(w.states, id)
      ensures w.inputs[id].content.finish ==> FirstFinish(q).Some?
    {
      var i :| 0 <= i < |q| && q[i].id == id && Takes(q[i]);
      assert IsPending(w, n.address, q[i].id);
    }
    forall id | Landed(n, id) in w.trace && id in w.inputs && !Consumed(w.states, id) && w.inputs[id].disposition == Delivered
      ensures id in t.consumed
    {
      assert LandedOk(w, n, id) && IsPending(w, n.address, id) && id in w.order;
      var i :| 0 <= i < |q| && q[i] == w.inputs[id];
      assert q[i].id == id && Takes(q[i]);
      assert TakenFrom(q, id);
    }
  }

  /** The ways a completed turn may leave the settled occurrence `t`. */
  ghost predicate Shape(s: Occurrence, t: Occurrence, finish: bool, r: Occurrence) {
    && r.consumed == t.consumed && r.published == t.published
    && (r.messages == t.messages || exists text :: r.messages == t.messages + [Assistant(text)])
    && (if r.unresolved then r.active == t.active && r.endedBy == t.endedBy && r.messages == t.messages
        else r.active.None? && !t.unresolved && (finish ==> r.endedBy == ByHuman))
  }

  lemma ClosedShape(s: Occurrence, q: seq<Input>, outcome: Outcome)
    requires Closed(s, q, outcome).1
    ensures Shape(s, Settle(s, q), FirstFinish(q).Some?, Closed(s, q, outcome).0)
  {
    var t, r := Settle(s, q), Closed(s, q, outcome).0;
    if outcome.Succeeded? && outcome.decision.Chat? {
      assert !r.unresolved ==> r.messages == t.messages + [Assistant(outcome.decision.text)];
    }
  }

  /** What the completed turn leaves is fit to be committed. */
  lemma ShapeCommits(w: World, n: Node, s: Occurrence, q: seq<Input>, t: Occurrence, r: Occurrence)
    requires Inv(w) && n in w.states && w.states[n].active.Some? && w.states[n].endedBy == Open
    requires s == w.states[n].(messages := s.messages, published := s.published)
    requires SettledIn(w, n, s, q, t) && Shape(s, t, FirstFinish(q).Some?, r)
    ensures Commits(w, n, r)
  {
    assert ShownOk(r) by {
      if r.messages != t.messages {
        var text :| r.messages == t.messages + [Assistant(text)];
        ShownAfter(t.messages, Assistant(text));
      }
    }
    forall id | id in r.consumed && id in w.inputs && w.inputs[id].content.finish
      ensures r.endedBy != Open || (r.unresolved && r.active.Some?)
    {
      if id in s.consumed { assert ConsumedBy(w.states, n, id); }
    }
  }

  lemma ClosedCommits(w: World, n: Node, s: Occurrence, q: seq<Input>, outcome: Outcome)
    requires Inv(w) && n in w.states && w.states[n].active.Some? && w.states[n].endedBy == Open
    requires IsQueue(w, n.address, w.order, q) && ShownOk(s)
    requires s == w.states[n].(messages := s.messages, published := s.published)
    requires Closed(s, q, outcome).1
    ensures Commits(w, n, Closed(s, q, outcome).0)
  {
    SettleInWorld(w, n, s, q);
    ClosedShape(s, q, outcome);
    ShapeCommits(w, n, s, q, Settle(s, q), Closed(s, q, outcome).0);
  }

  lemma CompleteKeeps(w: World, at: Address, outcome: Outcome, delivered: bool, recorded: bool, committed: bool)
    requires Inv(w) && at in w.loops && w.loops[at].phase == Turn([])
    ensures Inv(DoComplete(w, at, outcome, delivered, recorded, committed))
  {
    var n := w.loops[at].node;
    assert LoopOk(w, at, w.loops[at]);
    ExitKeeps(w, at);
    RecordKeeps(w, n, outcome, delivered, committed);
  }

  lemma RecordKeeps(w: World, n: Node, outcome: Outcome, delivered: bool, committed: bool)
    requires Inv(w) && n in w.states && w.states[n].active.Some? && w.states[n].endedBy == Open
    ensures w.states[n].active.value in w.inputs
    ensures Inv(DoRecord(w, n, w.inputs[w.states[n].active.value], outcome, delivered, committed))
  {
    ActiveIsSafe(w, n);
    var s := w.states[n];
    var input := w.inputs[s.active.value];
    var d := PromptFate(s, input, outcome, delivered);
    ActivePutKeeps(w, n, d);
    assert ShownOk(s);
    var s1 := Published(s, input, Publishes(s, outcome, delivered));
    PublishedOk(s, input, Publishes(s, outcome, delivered));
    ConcludeKeeps(Put(w, input, d), n.address, n, s1, outcome, committed);
  }

  lemma FollowOk(g: Gen, a: Answer, note: Note, canceled: bool)
    requires GenOk(g)
    ensures GenOk(Follow(g, a, canceled)) && !Follow(g, a, canceled).stage.Running?
    ensures GenOk(Returned(g, a, note, canceled)) && !Returned(g, a, note, canceled).stage.Running?
  {
  }

  lemma AskKeeps(w: World, at: Address, canceled: bool)
    requires Inv(w) && Enabled(w, Ask(at, canceled))
    ensures Inv(DoAsk(w, at, canceled))
  {
    hide Lists, Loops, Sends, Finishes, Transcripts, Ids, Follow;
    var key, g := Key(w, at), w.gens[Key(w, at)];
    var turn := (key.0, key.1, g.turn);
    assert ActiveOk(w, key.0, key.1);
    if turn in w.settled {
      FollowOk(g, w.settled[turn], Unkept, canceled);
      SameInv(w, DoAsk(w, at, canceled));
    } else {
      var v := Advance(w, key, g.(stage := Running));
      SameInv(w, v);
      AskedKeeps(v, Asked(key.0, key.1, g.turn));
    }
  }

  lemma ReturnKeeps(w: World, at: Address, a: Answer, note: Note, canceled: bool)
    requires Inv(w) && Enabled(w, Return(at, a, note, canceled))
    ensures Inv(DoReturn(w, at, a, note, canceled))
  {
    hide Lists, Loops, Sends, Finishes, Transcripts, Ids, Follow, Returned;
    var key, g := Key(w, at), w.gens[Key(w, at)];
    FollowOk(g, a, note, canceled);
    SameInv(w, DoReturn(w, at, a, note, canceled));
  }

  /** Nothing but the turns changed. */
  lemma SameInv(w: World, w': World)
    requires Inv(w) && Turns(w')
    requires w' == w.(settled := w'.settled, gens := w'.gens)
    ensures Inv(w')
  {
    hide Turns;
    forall m | m in w'.states && w'.states[m].active.Some? ensures ActiveOk(w', m, w'.states[m].active.value) {
      assert ActiveOk(w, m, w.states[m].active.value);
    }
    forall n, id | Landed(n, id) in w'.trace ensures LandedOk(w', n, id) { assert LandedOk(w, n, id); }
    forall b | b in w'.loops ensures LoopOk(w', b, w'.loops[b]) {
      assert LoopOk(w, b, w.loops[b]);
      SameLoop(w, w', b, w.loops[b]);
    }
  }

  /** Asking the harness for a turn, of an input with no doubt about it. */
  lemma AskedKeeps(w: World, e: Event)
    requires Inv(w) && e.Asked? && !Doubt(w.trace, e.id)
    ensures Inv(Emit(w, e))
  {
    var w' := Emit(w, e);
    TraceMember(w.trace, e);
    CleanAfter(w.trace, e);
    forall id ensures Doubt(w'.trace, id) == Doubt(w.trace, id) { DoubtAfter(w.trace, e, id); }
    AskedKeepsSends(w, w');
    forall m | m in w'.states && w'.states[m].active.Some? ensures ActiveOk(w', m, w'.states[m].active.value) {
      assert ActiveOk(w, m, w.states[m].active.value);
    }
    forall b | b in w'.loops ensures LoopOk(w', b, w'.loops[b]) { AskedKeepsLoop(w, w', b); }
  }

  ghost predicate SameWords(w: World, w': World) {
    && w' == w.(trace := w'.trace)
    && (forall id :: Doubt(w'.trace, id) == Doubt(w.trace, id))
    && (forall e: Event | !e.Asked? :: e in w'.trace <==> e in w.trace)
  }

  lemma AskedKeepsSends(w: World, w': World)
    requires Sends(w) && SameWords(w, w') && CleanSends(w'.trace)
    ensures Sends(w')
  {
    forall n, id | Landed(n, id) in w'.trace ensures LandedOk(w', n, id) { assert LandedOk(w, n, id); }
    forall id | id in w'.inputs && w'.inputs[id].disposition == Delivered && !Consumed(w'.states, id)
      ensures exists m :: Landed(m, id) in w'.trace
    {
      var m :| Landed(m, id) in w.trace;
      assert Landed(m, id) in w'.trace;
    }
  }

  lemma AskedKeepsLoop(w: World, w': World, b: Address)
    requires b in w.loops && LoopOk(w, b, w.loops[b]) && SameWords(w, w')
    ensures LoopOk(w', b, w.loops[b])
  {
    var l := w.loops[b];
    if !l.phase.Idle? {
      forall i | 0 <= i < |l.phase.rest| ensures EntryOk(w', l.node, l.phase.rest[i]) {
        assert EntryOk(w, l.node, l.phase.rest[i]);
      }
    }
  }

  lemma ConcludeKeeps(w: World, at: Address, n: Node, s: Occurrence, outcome: Outcome, committed: bool)
    requires Inv(w) && n.address == at && n in w.states && w.states[n].active.Some? && w.states[n].endedBy == Open
    requires ShownOk(s) && s == w.states[n].(messages := s.messages, published := s.published)
    ensures Inv(Conclude(w, at, n, Closed(s, PendingAt(w, at), outcome), committed))
  {
    ExitKeeps(w, at);
    SnapshotOk(w, n);
    if Closed(s, PendingAt(w, at), outcome).1 {
      ClosedCommits(w, n, s, PendingAt(w, at), outcome);
      CommitKeeps(w, n, Closed(s, PendingAt(w, at), outcome).0);
    }
  }

  // ---- every run ----

  lemma StepKeeps(w: World, l: Label)
    requires Inv(w) && Enabled(w, l)
    ensures Inv(Apply(w, l))
  {
    hide Inv, DoAccept, DoEnter, DoLook, DoWake, DoSteer, DoAnswer, DoAsk, DoReturn, DoComplete, DoClose, Exit;
    match l
    case Accept(id, c, terminal, turnMatches) => AcceptKeeps(w, id, c, terminal, turnMatches);
    case Enter(n) => EnterKeeps(w, n);
    case Look(at, configured, committed) => LookKeeps(w, at, configured, committed);
    case Wake(at) => WakeKeeps(w, at);
    case Steer(at, recorded) => SteerKeeps(w, at, recorded);
    case Answer(at, landed, failed, recorded) => AnswerKeeps(w, at, landed, failed, recorded);
    case Ask(at, canceled) => AskKeeps(w, at, canceled);
    case Return(at, answer, note, canceled) => ReturnKeeps(w, at, answer, note, canceled);
    case Complete(at, outcome, delivered, recorded, committed) =>
      CompleteKeeps(w, at, outcome, delivered, recorded, committed);
    case Leave(at) => ExitKeeps(w, at);
    case CloseInputs(scope, count) => CloseKeeps(w, scope, count);
    case EndScope(scope) => EndScopeKeeps(w, scope);
    case Crash => CrashKeeps(w);
  }

  /** A run is any sequence of enabled labels. */
  ghost predicate IsRun(w: World, run: seq<Label>)
    decreases run
  {
    run == [] || (Enabled(w, run[0]) && IsRun(Apply(w, run[0]), run[1..]))
  }

  ghost function After(w: World, run: seq<Label>): World
    requires IsRun(w, run)
    decreases run
  {
    if run == [] then w else After(Apply(w, run[0]), run[1..])
  }

  lemma {:induction false} RunKeeps(w: World, run: seq<Label>)
    requires Inv(w) && IsRun(w, run)
    ensures Inv(After(w, run))
    decreases run
  {
    if run != [] {
      StepKeeps(w, run[0]);
      RunKeeps(Apply(w, run[0]), run[1..]);
    }
  }

  lemma InitOk()
    ensures Inv(INIT)
  {
  }
}
