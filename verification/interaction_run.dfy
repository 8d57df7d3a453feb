/** The interaction fields of a run and the methods that keep them (interactive.go:335-567).

The maps and the order slice are a cache of the committed journal. Writers put a committed value into the
cache at once and leave the cursor behind, so a refresh later replays records that are already there. Every
method is proved against the transition system of interaction.dfy, whose world is read off the journal. */
module InteractionRuns {
  import opened Wrappers
  import opened Interaction
  import opened InteractionProofs
  import opened InteractionProcess

  /** What the journal holds. A turn's outcome stands under its turn's node, which is here named by the occurrence, the
  prompt and the turn's place in the generation; an unresolved one has no answer. */
  datatype Record =
    | StateFact(node: Node, state: Occurrence)
    | InputFact(input: Input)
    | EndFact(scope: string)
    | TurnFact(node: Node, id: Id, turn: nat, answer: Option<Answer>)
    | OtherFact
  datatype Memory = Memory(states: map<Node, Occurrence>, inputs: map<Id, Input>, order: seq<Id>, ended: set<string>)

  const EMPTY := Memory(map[], map[], [], {})
  const BATCH: nat := 4096

  function Apply1(m: Memory, r: Record): Memory {
    match r
    case StateFact(n, s) => m.(states := m.states[n := s])
    case InputFact(e) => m.(inputs := m.inputs[e.id := e], order := if e.id in m.inputs then m.order else m.order + [e.id])
    case EndFact(scope) => m.(ended := m.ended + {scope})
    case _ => m
  }

  function Replay(m: Memory, s: seq<Record>): Memory {
    if s == [] then m else Apply1(Replay(m, s[..|s| - 1]), s[|s| - 1])
  }

  /** What the journal says. */
  function Fold(journal: seq<Record>): Memory { Replay(EMPTY, journal) }

  /** The turns that are answered from the record: the last outcome written, unless that is unresolved
  (replay.go:57-92). */
  function Outcomes(journal: seq<Record>): map<(Node, Id, nat), Answer> {
    if journal == [] then map[] else Recorded(Outcomes(journal[..|journal| - 1]), journal[|journal| - 1])
  }

  function Recorded(m: map<(Node, Id, nat), Answer>, r: Record): map<(Node, Id, nat), Answer> {
    if !r.TurnFact? then m
    else if r.answer.None? then m - {(r.node, r.id, r.turn)}
    else m[(r.node, r.id, r.turn) := r.answer.value]
  }

  lemma OutcomesNext(journal: seq<Record>, r: Record)
    ensures Outcomes(journal + [r]) == Recorded(Outcomes(journal), r)
  {
    assert (journal + [r])[..|journal|] == journal;
  }

  // ---- replaying what was already applied changes nothing ----

  lemma ReplayNext(m: Memory, s: seq<Record>, r: Record)
    ensures Replay(m, s + [r]) == Apply1(Replay(m, s), r)
  {
    assert (s + [r])[..|s|] == s;
  }

  lemma {:induction false} ReplaySplit(m: Memory, a: seq<Record>, b: seq<Record>)
    ensures Replay(m, a + b) == Replay(Replay(m, a), b)
  {
    if b == [] {
      assert a + b == a;
    } else {
      var init, last := b[..|b| - 1], b[|b| - 1];
      ReplaySplit(m, a, init);
      assert a + b == (a + init) + [last];
      ReplayNext(m, a + init, last);
    }
  }

  function LastState(s: seq<Record>, n: Node): Option<Occurrence> {
    if s == [] then None
    else
      var last := s[|s| - 1];
      if last.StateFact? && last.node == n then Some(last.state) else LastState(s[..|s| - 1], n)
  }

  function LastInput(s: seq<Record>, id: Id): Option<Input> {
    if s == [] then None
    else
      var last := s[|s| - 1];
      if last.InputFact? && last.input.id == id then Some(last.input) else LastInput(s[..|s| - 1], id)
  }

  function Get<K, V>(m: map<K, V>, k: K): Option<V> { if k in m then Some(m[k]) else None }
  function Or<V>(a: Option<V>, b: Option<V>): Option<V> { if a.Some? then a else b }

  /** The last record decides. */
  lemma {:induction false} LastDecides(m: Memory, s: seq<Record>, n: Node, id: Id)
    ensures Get(Replay(m, s).states, n) == Or(LastState(s, n), Get(m.states, n))
    ensures Get(Replay(m, s).inputs, id) == Or(LastInput(s, id), Get(m.inputs, id))
  {
    if s != [] { LastDecides(m, s[..|s| - 1], n, id); }
  }

  ghost predicate Known(m: Memory, s: seq<Record>) { forall r | r in s && r.InputFact? :: r.input.id in m.inputs }

  lemma {:induction false} KnownStays(m: Memory, s: seq<Record>)
    requires Known(m, s)
    ensures Replay(m, s).order == m.order && Replay(m, s).inputs.Keys == m.inputs.Keys
  {
    if s != [] { KnownStays(m, s[..|s| - 1]); }
  }

  lemma {:induction false} EndedUnion(m: Memory, k: Memory, s: seq<Record>)
    requires m.ended == k.ended
    ensures Replay(m, s).ended == Replay(k, s).ended
  {
    if s != [] { EndedUnion(m, k, s[..|s| - 1]); }
  }

  lemma {:induction false} InputsOf(m: Memory, s: seq<Record>)
    ensures Known(Replay(m, s), s)
  {
    if s != [] {
      InputsOf(m, s[..|s| - 1]);
      assert s == s[..|s| - 1] + [s[|s| - 1]];
    }
  }

  /** Replaying a suffix of the journal over a cache that already holds the whole journal, with some occurrences
  entered but never committed, only catches up the ended scopes. */
  lemma ReplayIsIdempotent(journal: seq<Record>, cursor: nat, m: Memory)
    requires cursor <= |journal| && m.inputs == Fold(journal).inputs && m.order == Fold(journal).order
    requires forall n | n in Fold(journal).states :: n in m.states && m.states[n] == Fold(journal).states[n]
    requires m.ended == Fold(journal[..cursor]).ended
    ensures Replay(m, journal[cursor..]) == m.(ended := Fold(journal).ended)
  {
    var a, b := journal[..cursor], journal[cursor..];
    assert a + b == journal;
    ReplaySplit(EMPTY, a, b);
    EndedUnion(m, Fold(a), b);
    InputsOf(Fold(a), b);
    KnownStays(m, b);
    var r := Replay(m, b);
    forall n ensures Get(r.states, n) == Get(m.states, n) {
      LastDecides(m, b, n, "");
      LastDecides(Fold(a), b, n, "");
    }
    SameMap(r.states, m.states);
    forall id ensures Get(r.inputs, id) == Get(m.inputs, id) {
      LastDecides(m, b, Node(Address("", ""), 0), id);
      LastDecides(Fold(a), b, Node(Address("", ""), 0), id);
    }
    SameMap(r.inputs, m.inputs);
  }

  lemma SameMap<K(!new), V(!new)>(a: map<K, V>, b: map<K, V>)
    requires forall k :: Get(a, k) == Get(b, k)
    ensures a == b
  {
    assert forall k :: k in a <==> Get(a, k).Some?;
    assert forall k :: k in b <==> Get(b, k).Some?;
    assert forall k | k in a :: Get(a, k) == Some(a[k]);
    assert forall k | k in b :: Get(b, k) == Some(b[k]);
  }

  /** The cache's order lists exactly the accepted ids, each once. */
  ghost predicate Indexed(m: Memory) {
    && Distinct(m.order) && (forall id :: id in m.order <==> id in m.inputs)
    && (forall id | id in m.inputs :: m.inputs[id].id == id)
  }

  lemma {:induction false} FoldIndexed(journal: seq<Record>)
    ensures Indexed(Fold(journal))
  {
    if journal != [] { FoldIndexed(journal[..|journal| - 1]); }
  }

  lemma CutAt<T>(s: seq<T>, i: nat, j: nat)
    requires i <= j <= |s|
    ensures s[i..] == s[i..j] + s[j..]
  {
  }

  // ---- the queue, as its loop builds it ----

  lemma {:induction false} QueueNext(w: World, at: Address, ids: seq<Id>, id: Id)
    requires id in w.inputs
    ensures Queue(w, at, ids + [id]) == Queue(w, at, ids) + (if IsPending(w, at, id) then [w.inputs[id]] else [])
  {
    if ids == [] {
      assert [] + [id] == [id] && [id][1..] == [];
    } else {
      assert (ids + [id])[1..] == ids[1..] + [id];
      QueueNext(w, at, ids[1..], id);
    }
  }

  lemma {:induction false} FinishNext(q: seq<Input>, e: Input)
    ensures FirstFinish(q + [e]) == if FirstFinish(q).Some? then FirstFinish(q) else if e.content.finish then Some(e) else None
  {
    if q == [] {
      assert [e][1..] == [];
    } else {
      assert (q + [e])[1..] == q[1..] + [e];
      FinishNext(q[1..], e);
    }
  }

  lemma {:induction false} SettleNext(s: Occurrence, q: seq<Input>, e: Input)
    ensures Settle(s, q + [e]) == SettleOne(Settle(s, q), e)
    decreases q
  {
    if q == [] {
      assert [] + [e] == [e] && [e][1..] == [];
    } else {
      assert (q + [e])[1..] == q[1..] + [e];
      SettleNext(SettleOne(s, q[0]), q[1..], e);
    }
  }

  datatype Entry = Begins | Ended | Taken

  /** What the harness and the journal say to one steer. */
  datatype Reply = Reply(recorded: bool, landed: bool, failed: bool, answered: bool)

  /** What the harness and the journal say to one turn; it may fail before it is asked. */
  datatype TurnReply = TurnReply(asked: bool, answer: Answer, note: Note, canceled: bool)

  predicate ReplyOk(r: TurnReply) { Records(r.answer, r.note) && (!r.asked ==> r.answer.Erred?) }

  class InteractionRun {
    var journal: seq<Record>
    var cursor: nat
    var states: map<Node, Occurrence>
    var inputs: map<Id, Input>
    var order: seq<Id>
    var ended: set<string>
    /** The address of every live consumer, with where its loop stands. */
    var active: map<Address, Loop>
    /** The outcomes found when the run was opened; a turn taken up again is answered from them alone. */
    var replay: map<(Node, Id, nat), Answer>
    /** The generations begun, each with its counters. */
    var gens: map<(Node, Id), Gen>
    ghost var entered: set<Node>
    ghost var trace: seq<Event>

    /** The world of the transition system: what the journal committed, and the live consumers. */
    ghost function View(): World
      reads this
    {
      var f := Fold(journal);
      World(f.states, entered, f.inputs, f.order, f.ended, active, trace, Outcomes(journal), gens)
    }

    ghost function Cache(): Memory
      reads this
    {
      Memory(states, inputs, order, ended)
    }

    /** The journal's memory plus the occurrences entered but never committed (interactive.go:102). */
    ghost function Full(): Memory
      reads this
    {
      var f := Fold(journal);
      f.(states := (map n | n in entered :: NEW) + f.states)
    }

    /** A refresh would bring the cache up to the journal. */
    ghost predicate Valid()
      reads this
    {
      cursor <= |journal| && Replay(Cache(), journal[cursor..]) == Full()
    }

    /** Only ended scopes may be missing from the cache. */
    ghost predicate Synced()
      reads this
    {
      cursor <= |journal| && Cache() == Full().(ended := Fold(journal[..cursor]).ended)
    }

    lemma SyncedIsValid()
      requires Synced()
      ensures Valid() && Indexed(Fold(journal))
    {
      FoldIndexed(journal);
      ReplayIsIdempotent(journal, cursor, Cache());
    }

    /** A run opened, or opened again after a crash, over whatever was committed. */
    constructor (committed: seq<Record>)
      ensures Valid() && journal == committed && active == map[] && entered == {} && trace == []
      ensures replay == Outcomes(journal) && ReadEnough(View(), replay) && gens == map[]
    {
      journal, cursor, states, inputs, order, ended, active := committed, 0, map[], map[], [], {}, map[];
      entered, trace, replay, gens := {}, [], map[], map[];
      new;
      LoadReplay();
      assert journal[0..] == journal;
      assert (map n | n in entered :: NEW) + Fold(journal).states == Fold(journal).states;
    }

    /** Reads the journal from the start when the run is opened (replay.go:12-28). */
    method LoadReplay()
      modifies this`replay
      ensures replay == Outcomes(journal)
    {
      replay := map[];
      for i := 0 to |journal|
        invariant replay == Outcomes(journal[..i])
      {
        OutcomesNext(journal[..i], journal[i]);
        assert journal[..i] + [journal[i]] == journal[..i + 1];
        replay := Recorded(replay, journal[i]);
      }
      assert journal[..|journal|] == journal;
    }

    /** A record written by anyone else, such as the end of a scope. */
    method Append(r: Record)
      requires Valid() && (r.EndFact? || r.OtherFact?)
      modifies this`journal
      ensures Valid() && View() == old(if r.EndFact? then View().(ended := View().ended + {r.scope}) else View())
      ensures old(Synced()) ==> Synced()
    {
      hide Replay;
      ReplayNext(Cache(), journal[cursor..], r);
      ReplayNext(EMPTY, journal, r);
      OutcomesNext(journal, r);
      assert (journal + [r])[cursor..] == journal[cursor..] + [r];
      assert (journal + [r])[..cursor] == journal[..cursor];
      journal := journal + [r];
    }

    /** One record of a refresh (interactive.go:354-386). */
    method Take(r: Record)
      modifies this`states, this`inputs, this`order, this`ended
      ensures Cache() == Apply1(old(Cache()), r)
    {
      match r
      case StateFact(n, s) => states := states[n := s];
      case InputFact(e) =>
        if e.id !in inputs { order := order + [e.id]; }
        inputs := inputs[e.id := e];
      case EndFact(scope) => ended := ended + {scope};
      case _ =>
    }

    method TakeAll(records: seq<Record>)
      modifies this`cursor, this`states, this`inputs, this`order, this`ended
      ensures Cache() == Replay(old(Cache()), records) && cursor == old(cursor) + |records|
    {
      for i := 0 to |records|
        invariant Cache() == Replay(old(Cache()), records[..i]) && cursor == old(cursor) + i
      {
        ReplayNext(old(Cache()), records[..i], records[i]);
        assert records[..i] + [records[i]] == records[..i + 1];
        cursor := cursor + 1;
        Take(records[i]);
      }
      assert records[..|records|] == records;
    }

    method RefreshInteractions()
      requires Valid()
      modifies this`cursor, this`states, this`inputs, this`order, this`ended
      ensures Valid() && Synced() && ended == View().ended && cursor == |journal|
    {
      while true
        invariant cursor <= |journal| && Replay(Cache(), journal[cursor..]) == Full()
        decreases |journal| - cursor
      {
        var until := if |journal| - cursor < BATCH then |journal| else cursor + BATCH;
        var records := journal[cursor..until];
        CutAt(journal, cursor, until);
        ReplaySplit(Cache(), records, journal[until..]);
        TakeAll(records);
        if |records| < BATCH { break; }
      }
      assert journal[..cursor] == journal;
      SyncedIsValid();
    }

    /** Committing one input record and putting it into the cache (interactive.go:335-341). */
    method UpdateInput(e: Input, recorded: bool) returns (ok: bool)
      requires Synced() && e.id in inputs
      modifies this`journal, this`inputs
      ensures Synced() && ok == recorded
      ensures View() == if recorded then old(View()).(inputs := old(View()).inputs[e.id := e]) else old(View())
    {
      ok := recorded;
      if recorded {
        ReplayNext(EMPTY, journal, InputFact(e));
        OutcomesNext(journal, InputFact(e));
        assert (journal + [InputFact(e)])[..cursor] == journal[..cursor];
        journal := journal + [InputFact(e)];
        inputs := inputs[e.id := e];
      }
    }

    method CommitInteraction(n: Node, s: Occurrence, committed: bool) returns (ok: bool)
      requires Synced()
      modifies this`journal, this`states
      ensures Synced() && ok == committed
      ensures View() == if committed then Commit(old(View()), n, s) else old(View())
    {
      ok := committed;
      if committed {
        ReplayNext(EMPTY, journal, StateFact(n, s));
        OutcomesNext(journal, StateFact(n, s));
        assert (journal + [StateFact(n, s)])[..cursor] == journal[..cursor];
        journal := journal + [StateFact(n, s)];
        states := states[n := s];
      }
    }

    lemma StatesOfView(n: Node)
      requires Synced()
      ensures n in states <==> n in View().states.Keys + View().entered
      ensures n in states ==> states[n] == State(View(), n)
    {
    }

    lemma ConsumedOfView(id: Id)
      requires Synced()
      ensures Consumed(View().states, id) <==> exists n :: n in states && id in states[n].consumed
    {
      if n :| n in states && id in states[n].consumed { assert ConsumedBy(View().states, n, id); }
      if n :| ConsumedBy(View().states, n, id) { assert n in states && id in states[n].consumed; }
    }

    /** Every id that some occurrence has consumed. */
    method ConsumedIds() returns (consumed: set<Id>)
      requires Synced()
      ensures forall id :: id in consumed <==> Consumed(View().states, id)
    {
      consumed := {};
      var todo := states.Keys;
      while todo != {}
        invariant todo <= states.Keys
        invariant forall id :: id in consumed <==> exists n :: n in states && n !in todo && id in states[n].consumed
        decreases todo
      {
        var n :| n in todo;
        ghost var before := consumed;
        for i := 0 to |states[n].consumed|
          invariant forall id :: id in consumed <==> id in before || id in states[n].consumed[..i]
        {
          consumed := consumed + {states[n].consumed[i]};
        }
        assert states[n].consumed[..|states[n].consumed|] == states[n].consumed;
        todo := todo - {n};
      }
      forall id ensures id in consumed <==> Consumed(View().states, id) { ConsumedOfView(id); }
    }

    /** The pending inputs of an address, for an occurrence that may hold more consumed ids than it committed. */
    method PendingInput(at: Address, own: seq<Id>) returns (pending: seq<Input>)
      requires Synced() && forall id | id in own :: Consumed(View().states, id)
      ensures pending == PendingAt(View(), at)
    {
      var consumed := ConsumedIds();
      for i := 0 to |own|
        invariant forall id :: id in consumed <==> Consumed(View().states, id)
      {
        consumed := consumed + {own[i]};
      }
      SyncedIsValid();
      pending := [];
      for i := 0 to |order|
        invariant pending == Queue(View(), at, order[..i])
      {
        var id := order[i];
        var input := inputs[id];
        QueueNext(View(), at, order[..i], id);
        assert order[..i] + [id] == order[..i + 1];
        if input.content.address == at && input.disposition != Unprocessed && id !in consumed {
          pending := pending + [input];
        }
      }
      assert order[..|order|] == order;
    }

    // ---- acceptance ----

    /** Whether a live conversation at the address still has pending input or is not waiting. */
    method Busy(at: Address) returns (busy: bool)
      requires Synced()
      ensures busy <==> exists n | n in View().states.Keys + View().entered ::
                n.address == at && State(View(), n).endedBy == Open && !Ready(View(), State(View(), n), at)
    {
      var todo := states.Keys;
      while todo != {}
        invariant todo <= states.Keys
        invariant forall n | n in states && n !in todo ::
          !(n.address == at && states[n].endedBy == Open && !Ready(View(), states[n], at))
        decreases todo
      {
        var n :| n in todo;
        StatesOfView(n);
        if n.address == at && states[n].endedBy == Open {
          forall id | id in states[n].consumed ensures Consumed(View().states, id) { ConsumedOfView(id); }
          var pending := PendingInput(at, states[n].consumed);
          if !states[n].waiting || |pending| > 0 { return true; }
        }
        todo := todo - {n};
      }
      forall n ensures n in states <==> n in View().states.Keys + View().entered { StatesOfView(n); }
      forall n | n in states ensures states[n] == State(View(), n) { StatesOfView(n); }
      busy := false;
    }

    method FinishAccepted(at: Address) returns (found: bool)
      requires Synced()
      ensures found <==> exists f | f in View().inputs :: View().inputs[f].content.address == at && View().inputs[f].content.finish
    {
      var todo := inputs.Keys;
      while todo != {}
        invariant todo <= inputs.Keys
        invariant forall f | f in inputs && f !in todo :: !(inputs[f].content.address == at && inputs[f].content.finish)
        decreases todo
      {
        var f :| f in todo;
        if inputs[f].content.address == at && inputs[f].content.finish {
          assert f in View().inputs;
          return true;
        }
        todo := todo - {f};
      }
      found := false;
    }

    method Admit(e: Input)
      requires Synced() && e.id !in inputs
      modifies this`journal, this`inputs, this`order
      ensures Synced()
      ensures View() == old(View()).(inputs := old(View()).inputs[e.id := e], order := old(View()).order + [e.id])
    {
      ReplayNext(EMPTY, journal, InputFact(e));
      OutcomesNext(journal, InputFact(e));
      assert (journal + [InputFact(e)])[..cursor] == journal[..cursor];
      journal := journal + [InputFact(e)];
      inputs := inputs[e.id := e];
      order := order + [e.id];
    }

    /** `recorded` is false when the journal refuses the write; the caller then gets its error. */
    method AcceptInputAtTurn(id: Id, c: Content, terminal: bool, turnMatches: bool, recorded: bool) returns (v: Verdict)
      requires Valid()
      modifies this`journal, this`cursor, this`states, this`inputs, this`order, this`ended
      ensures Valid() && Synced()
      ensures recorded ==> v == Judge(old(View()), id, c, terminal, turnMatches)
      ensures View() == if recorded then DoAccept(old(View()), id, c, terminal, turnMatches) else old(View())
    {
      RefreshInteractions();
      assert View() == old(View()) && inputs == View().inputs;
      if id == "" { return Rejected; }
      if id in inputs { return if inputs[id].content == c then Duplicate else Conflict; }
      if terminal || !turnMatches { return Rejected; }
      if c.configure {
        var busy := Busy(c.address);
        if busy { return Rejected; }
      }
      if "" in ended || c.address.owner in ended { return Rejected; }
      var finished := FinishAccepted(c.address);
      if finished || c.address !in active || !recorded { return Rejected; }
      Admit(Input(id, c, Pending));
      SyncedIsValid();
      v := Accepted;
    }

    // ---- closing ----

    /** `writes` is how many records the journal still takes; the loop gives up at the first one it refuses. */
    method CloseInteractionInputs(scope: string, writes: nat) returns (count: nat)
      requires Valid()
      modifies this`journal, this`cursor, this`states, this`inputs, this`order, this`ended
      ensures Valid() && Synced() && View() == DoClose(old(View()), scope, count)
      ensures count <= |View().order| && (writes >= |View().order| ==> count == |View().order|)
    {
      RefreshInteractions();
      SyncedIsValid();
      var consumed := ConsumedIds();
      count := CloseEach(scope, consumed, writes);
      SyncedIsValid();
    }

    method CloseEach(scope: string, consumed: set<Id>, writes: nat) returns (count: nat)
      requires Synced() && Indexed(Fold(journal)) && forall id :: id in consumed <==> Consumed(View().states, id)
      modifies this`journal, this`inputs
      ensures Synced() && View() == DoClose(old(View()), scope, count) && order == View().order
      ensures count <= |order| && (writes >= |order| ==> count == |order|)
    {
      hide DoClose, Closes, Synced, MustClose, View;
      ghost var was := View();
      CloseNone(was, scope);
      OrderOfView();
      var left := writes;
      count := 0;
      while count < |order|
        invariant count <= |order| && Synced() && View() == DoClose(was, scope, count) && writes <= left + count
        invariant Indexed(Fold(journal)) && order == was.order && inputs.Keys == was.inputs.Keys
        decreases |order| - count
      {
        ClosesNow(was, scope, count, consumed);
        var closes := MustClose(order[count], scope, consumed);
        if closes && left == 0 { break; }
        CloseOne(was, scope, count, closes);
        OrderOfView();
        CloseFacts(was, scope, count + 1);
        left := if closes then left - 1 else left;
        count := count + 1;
      }
      OrderOfView();
    }

    lemma OrderOfView()
      requires Synced()
      ensures order == View().order && inputs == View().inputs && Indexed(Fold(journal))
      ensures Distinct(View().order) && forall id | id in View().order :: id in View().inputs
    {
      FoldIndexed(journal);
    }

    lemma ClosesNow(was: World, scope: string, count: nat, consumed: set<Id>)
      requires Synced() && View() == DoClose(was, scope, count) && Distinct(was.order) && count < |order| && order == was.order
      requires order[count] in was.inputs && order[count] in inputs
      requires forall id :: id in consumed <==> Consumed(was.states, id)
      ensures MustClose(order[count], scope, consumed) <==> Closes(was, scope, order[count])
    {
      CloseNext(was, scope, count);
      assert inputs[order[count]] == was.inputs[order[count]];
    }

    method CloseOne(ghost was: World, scope: string, count: nat, closes: bool)
      requires Synced() && View() == DoClose(was, scope, count) && Indexed(Fold(journal))
      requires Distinct(was.order) && count < |order| && order == was.order && order[count] in was.inputs
      requires closes <==> Closes(was, scope, order[count])
      modifies this`journal, this`inputs
      ensures Synced() && View() == DoClose(was, scope, count + 1)
    {
      CloseNext(was, scope, count);
      if closes { var ok := UpdateInput(inputs[order[count]].(disposition := Unprocessed), true); }
    }

    predicate MustClose(id: Id, scope: string, consumed: set<Id>)
      requires id in inputs
      reads this
    {
      id !in consumed && inputs[id].disposition !in {Unprocessed, Uncertain} && InScope(scope, inputs[id].content.address.owner)
    }

    // ---- the consumer loop ----

    function Stored(n: Node): Occurrence
      reads this
    {
      if n in states then states[n] else NEW
    }

    lemma StoredIsState(n: Node)
      requires Synced()
      ensures Stored(n) == State(View(), n)
    {
    }

    /** An occurrence that is over answers with its transcript; a second consumer at one address is an error. */
    method Enter(n: Node) returns (entry: Entry)
      requires Valid()
      modifies this`cursor, this`states, this`inputs, this`order, this`ended, this`active, this`entered
      ensures Valid() && Synced()
      ensures entry == (if State(old(View()), n).endedBy != Open then Ended else if n.address in old(active) then Taken else Begins)
      ensures View() == if entry.Begins? then DoEnter(old(View()), n) else old(View())
    {
      RefreshInteractions();
      StoredIsState(n);
      if Stored(n).endedBy != Open { return Ended; }
      if n.address in active { return Taken; }
      Install(n);
      SyncedIsValid();
      entry := Begins;
    }

    /** Stores an occurrence that may not be committed yet, and starts its loop (interactive.go:100-102). */
    method Install(n: Node)
      requires Synced()
      modifies this`states, this`active, this`entered
      ensures Synced()
      ensures View() == At(old(View()).(entered := old(View()).entered + {n}), n.address, n, Idle)
    {
      states := states[n := Stored(n)];
      entered := entered + {n};
      active := active[n.address := Loop(n, Idle)];
      assert states == Full().states;
    }

    method Leave(at: Address)
      requires Valid()
      modifies this`active
      ensures Valid() && View() == Exit(old(View()), at) && (old(Synced()) ==> Synced())
    {
      active := active - {at};
    }

    /** Commits an occurrence and keeps its loop at a phase, or leaves when the journal refuses. */
    method CommitAt(n: Node, s: Occurrence, phase: Phase, committed: bool) returns (ok: bool)
      requires Synced()
      modifies this`journal, this`states, this`active
      ensures Synced() && ok == committed
      ensures View() == if committed then At(Commit(old(View()), n, s), n.address, n, phase) else Exit(old(View()), n.address)
    {
      ok := CommitInteraction(n, s, committed);
      active := if ok then active[n.address := Loop(n, phase)] else active - {n.address};
    }

    /** Commits what can be committed and leaves. */
    method CommitAndLeave(n: Node, s: Occurrence, committed: bool)
      requires Synced()
      modifies this`journal, this`states, this`active
      ensures Synced()
      ensures View() == Exit(if committed then Commit(old(View()), n, s) else old(View()), n.address)
    {
      var ok := CommitInteraction(n, s, committed);
      active := active - {n.address};
    }

    method FindFinish(q: seq<Input>) returns (finish: Option<Input>)
      ensures finish == FirstFinish(q)
    {
      for i := 0 to |q|
        invariant FirstFinish(q[..i]).None?
      {
        FinishNext(q[..i], q[i]);
        assert q[..i] + [q[i]] == q[..i + 1];
        if q[i].content.finish {
          FinishStays(q, i + 1);
          return Some(q[i]);
        }
      }
      assert q[..|q|] == q;
      finish := None;
    }

    /** Acts on the active input again, or on the head of the queue (interactive.go:161-215). */
    method TakeInput(n: Node, input: Input, configured: bool, committed: bool)
      requires Synced()
      modifies this`journal, this`states, this`active, this`gens, this`trace
      ensures Synced() && View() == DoTake(old(View()), n, input, configured, committed)
    {
      hide Replay, Outcomes, Fold;
      StoredIsState(n);
      var s := Stored(n);
      if input.disposition in {Uncertain, Inflight} {
        CommitAndLeave(n, s.(unresolved := true), committed);
      } else if input.content.configure && !configured {
        active := active - {n.address};
      } else if input.content.configure || input.content.stop {
        var ok := CommitAt(n, s.(consumed := s.consumed + [input.id]), Idle, committed);
      } else {
        if s.active.None? {
          s := s.(consumed := s.consumed + [input.id], active := Some(input.id), published := false);
        }
        var ok := CommitAt(n, s.(waiting := false), Turn([]), committed);
        if ok {
          gens := gens[(n, input.id) := START];
          trace := trace + [Prompted(n, input.id)];
        }
      }
    }

    /** The top of the loop with no turn running (interactive.go:127-216). */
    method Look(at: Address, configured: bool, committed: bool)
      requires Valid() && at in active && active[at].phase.Idle? && active[at].node.address == at
      modifies this`journal, this`cursor, this`states, this`inputs, this`order, this`ended, this`active, this`gens, this`trace
      ensures Valid() && Synced() && View() == DoLook(old(View()), at, configured, committed)
    {
      RefreshInteractions();
      var n := active[at].node;
      StoredIsState(n);
      var s := Stored(n);
      forall id | id in s.consumed ensures Consumed(View().states, id) { assert ConsumedBy(View().states, n, id); }
      var pending := PendingInput(at, s.consumed);
      var finish := FindFinish(pending);
      if finish.Some? && s.active.None? {
        CommitAndLeave(n, s.(consumed := s.consumed + [finish.value.id], endedBy := ByHuman, waiting := false), committed);
      } else if s.active.Some? && s.active.value in inputs {
        TakeInput(n, inputs[s.active.value], configured, committed);
      } else if |pending| > 0 {
        TakeInput(n, pending[0], configured, committed);
      } else {
        var ok := CommitAt(n, s.(waiting := true), Idle, committed);
      }
      SyncedIsValid();
    }

    /** A wakeup while a turn runs takes a new snapshot of the queue. */
    method Wake(at: Address)
      requires Valid() && at in active && active[at].phase == Turn([])
      modifies this`cursor, this`states, this`inputs, this`order, this`ended, this`active
      ensures Valid() && Synced() && View() == DoWake(old(View()), at)
    {
      RefreshInteractions();
      var pending := PendingInput(at, []);
      active := active[at := Loop(active[at].node, Turn(pending))];
      SyncedIsValid();
    }

    /** The next input of the snapshot: skipped, or stored as inflight before it is sent (interactive.go:219-233). */
    method SteerNext(at: Address, recorded: bool)
      requires Synced() && Inv(View()) && at in active && active[at].phase.Turn? && active[at].phase.rest != []
      modifies this`journal, this`inputs, this`active, this`trace
      ensures Synced() && View() == DoSteer(old(View()), at, recorded)
    {
      hide Inv;
      var Loop(n, Turn(rest)) := active[at];
      var input := rest[0];
      QueuedIsStored(View(), at);
      if input.content.finish || input.content.stop || input.content.configure || input.disposition != Pending {
        active := active[at := Loop(n, Turn(rest[1..]))];
        return;
      }
      var ok := UpdateInput(input.(disposition := Inflight), recorded);
      if ok {
        active := active[at := Loop(n, Sending(input, rest[1..]))];
        trace := trace + [SteerSent(n, input.id)];
      } else {
        active := active - {at};
      }
    }

    /** The answer to a steer (interactive.go:234-244). */
    method SteerAnswered(at: Address, landed: bool, failed: bool, recorded: bool)
      requires Synced() && Inv(View()) && at in active && active[at].phase.Sending?
      modifies this`journal, this`inputs, this`active, this`trace
      ensures Synced() && View() == DoAnswer(old(View()), at, landed, failed, recorded)
    {
      hide Inv;
      var Loop(n, Sending(input, rest)) := active[at];
      QueuedIsStored(View(), at);
      var disposition := Pending;
      if failed { disposition := Uncertain; } else if landed { disposition := Delivered; }
      var ok := UpdateInput(input.(disposition := disposition), recorded);
      if ok {
        active := active[at := Loop(n, Turn(rest))];
        trace := trace + [if failed then Doubtful(n, input.id) else if landed then Landed(n, input.id) else Dropped(n, input.id)];
      } else {
        active := active - {at};
      }
    }

    /** One wakeup: a snapshot, then every input of it in turn (interactive.go:217-254). The labels are a run of the
    machine, so the invariant holds again afterwards and the next wakeup may follow at once. */
    method ServeWake(at: Address, replies: seq<Reply>) returns (ghost labels: seq<Label>)
      requires Valid() && Inv(View()) && at in active && active[at].phase == Turn([])
      modifies this`journal, this`cursor, this`states, this`inputs, this`order, this`ended, this`active, this`trace
      ensures Synced() && Inv(View()) && IsRun(old(View()), labels) && View() == After(old(View()), labels)
      ensures labels != [] && labels[0] == Label.Wake(at) && Crash !in labels
      ensures at in active ==> active[at].phase == Turn([]) || |replies| < |PendingAt(old(View()), at)|
    {
      hide Inv, Synced, IsRun, After, PendingAt;
      ghost var w0 := View();
      labels := [Label.Wake(at)];
      StepRun(w0, labels[0]);
      StepKeeps(w0, labels[0]);
      Wake(at);
      ghost var n := |PendingAt(w0, at)|;
      for i := 0 to |replies|
        invariant Synced() && Inv(View()) && IsRun(w0, labels) && View() == After(w0, labels)
        invariant labels != [] && labels[0] == Label.Wake(at) && Crash !in labels
        invariant at in active ==> active[at].phase.Turn? && |active[at].phase.rest| <= (if i < n then n - i else 0)
      {
        if at !in active || active[at].phase.rest == [] { return; }
        labels := SteerOnce(w0, labels, at, replies[i]);
      }
    }

    /** One input of the snapshot, and the answer to it if it was sent. */
    method SteerOnce(ghost w0: World, ghost before: seq<Label>, at: Address, reply: Reply) returns (ghost labels: seq<Label>)
      requires Synced() && Inv(View()) && at in active && active[at].phase.Turn? && active[at].phase.rest != []
      requires IsRun(w0, before) && View() == After(w0, before) && Crash !in before
      modifies this`journal, this`inputs, this`active, this`trace
      ensures Synced() && Inv(View()) && before <= labels && IsRun(w0, labels) && View() == After(w0, labels)
      ensures Crash !in labels
      ensures at in active ==> active[at].phase == Turn(old(active[at].phase.rest)[1..])
    {
      hide Inv, Synced, IsRun, After;
      labels := before + [Label.Steer(at, reply.recorded)];
      StepKeeps(View(), Label.Steer(at, reply.recorded));
      RunThen(w0, before, Label.Steer(at, reply.recorded));
      SteerNext(at, reply.recorded);
      if at in active && active[at].phase.Sending? {
        ghost var l, sent := Answer(at, reply.landed, reply.failed, reply.answered), labels;
        StepKeeps(View(), l);
        RunThen(w0, sent, l);
        labels := sent + [l];
        SteerAnswered(at, reply.landed, reply.failed, reply.answered);
      }
    }

    // ---- the turns of a generation ----

    /** What follows a turn (session.go:294-315). */
    method AfterTurn(g: Gen, a: Answer, canceled: bool) returns (next: Gen)
      ensures next == Follow(g, a, canceled)
    {
      match a {
        case Said(decision) => return g.(stage := Over(Succeeded(decision)));
        case Erred(invalid, provider, c, uncertain) =>
          next := g.(stage := Over(Failed(c, uncertain)));
          if !invalid {
            if provider && g.failures + 1 < FAILURES && !canceled {
              next := Gen(g.turn + 1, g.invalid, g.failures + 1, Due);
            }
            return;
          }
          if g.invalid + 1 < INVALID { next := Gen(g.turn + 1, g.invalid + 1, g.failures, Due); }
      }
    }

    lemma OwnKey(at: Address)
      requires Synced() && Generating(View(), at)
      ensures Key(View(), at) == (active[at].node, Stored(active[at].node).active.value)
    {
      StoredIsState(active[at].node);
    }

    /** The next turn is answered from what was read when the run was opened, or the harness is asked
    (session.go:405-419, 504-533). */
    method AskTurn(at: Address, canceled: bool)
      requires Synced() && ReadEnough(View(), replay) && Enabled(View(), Ask(at, canceled))
      modifies this`gens, this`trace
      ensures Synced() && View() == DoAsk(old(View()), at, canceled)
    {
      hide Follow, ReadEnough, Replay, Outcomes, Fold;
      OwnKey(at);
      ReadIsRecorded(View(), at, replay);
      var n := active[at].node;
      var id := Stored(n).active.value;
      var g := gens[(n, id)];
      if (n, id, g.turn) in replay {
        var next := AfterTurn(g, replay[(n, id, g.turn)], canceled);
        gens := gens[(n, id) := next];
      } else {
        gens := gens[(n, id) := g.(stage := Running)];
        trace := trace + [Asked(n, id, g.turn)];
      }
    }

    /** The turn is over and its outcome is written, or found unresolved (run_recording.go:138-169). A refused write does
    not change what the caller gets, but no further turn is asked (session.go:385-394, 545-547). */
    method ReturnTurn(at: Address, a: Answer, note: Note, canceled: bool)
      requires Synced() && Inv(View()) && CanReturn(View(), at, a, note)
      modifies this`journal, this`gens
      ensures Synced() && View() == DoReturn(old(View()), at, a, note, canceled)
    {
      hide Follow, Inv, Replay, Outcomes, Fold;
      OwnKey(at);
      var n := active[at].node;
      var id := Stored(n).active.value;
      var g := gens[(n, id)];
      if note.Kept? {
        Write(TurnFact(n, id, g.turn, Some(note.answer)));
      } else if note.Unkept? && g.stage.Running? && a.Erred? && a.uncertain {
        RunningIsOpen(View(), n, id);
        Write(TurnFact(n, id, g.turn, None));
      }
      var next := AfterTurn(g, a, canceled);
      if note.Refused? && next.stage.Due? { next := next.(stage := Over(Failed(false, false))); }
      gens := gens[(n, id) := next];
    }

    method Write(r: Record)
      requires Synced() && r.TurnFact?
      modifies this`journal
      ensures Synced() && View() == old(View()).(settled := Recorded(old(View()).settled, r))
    {
      ReplayNext(EMPTY, journal, r);
      OutcomesNext(journal, r);
      assert (journal + [r])[..cursor] == journal[..cursor];
      journal := journal + [r];
    }

    /** The loop over the turns of a generation (session.go:280-316), with what the harness and the journal say to each
    that is not answered from the record. The labels are a run of the machine, and four turns are enough for it to end. */
    method GenerateResponse(at: Address, n: Node, id: Id, script: seq<TurnReply>) returns (ghost labels: seq<Label>)
      requires Synced() && Inv(View()) && ReadEnough(View(), replay) && Turning(at, n, id, 1)
      requires forall i | 0 <= i < |script| :: ReplyOk(script[i])
      modifies this`journal, this`gens, this`trace
      ensures Synced() && Inv(View()) && ReadEnough(View(), replay)
      ensures IsRun(old(View()), labels) && View() == After(old(View()), labels) && Crash !in labels
      ensures Turning(at, n, id, |script| + 1) && (|script| >= 4 ==> gens[(n, id)].stage.Over?)
    {
      hide Inv, Synced, ReadEnough, IsRun, After, ReplyOk;
      ghost var w0 := View();
      labels := [];
      NoLabels(w0);
      for i := 0 to |script|
        invariant Synced() && Inv(View()) && ReadEnough(View(), replay) && Turning(at, n, id, i + 1)
        invariant IsRun(w0, labels) && View() == After(w0, labels) && Crash !in labels
      {
        if gens[(n, id)].stage.Over? { return; }
        labels := TurnOnce(w0, labels, at, n, id, script[i]);
      }
      GensOk(View(), (n, id));
    }

    /** The generation of the consumer's prompt is over, or this turn of it is due. */
    ghost predicate Turning(at: Address, n: Node, id: Id, turn: nat)
      reads this
    {
      && Generating(View(), at) && Key(View(), at) == (n, id)
      && (gens[(n, id)].stage.Over? || (gens[(n, id)].stage.Due? && gens[(n, id)].turn == turn))
    }

    /** One turn: answered from the record, asked and answered, or failed before it was asked. */
    method TurnOnce(ghost w0: World, ghost before: seq<Label>, at: Address, n: Node, id: Id, reply: TurnReply)
      returns (ghost labels: seq<Label>)
      requires Synced() && Inv(View()) && ReadEnough(View(), replay) && ReplyOk(reply)
      requires Generating(View(), at) && Key(View(), at) == (n, id) && gens[(n, id)].stage.Due?
      requires IsRun(w0, before) && View() == After(w0, before) && Crash !in before
      modifies this`journal, this`gens, this`trace
      ensures Synced() && Inv(View()) && ReadEnough(View(), replay) && Turning(at, n, id, old(gens[(n, id)].turn) + 1)
      ensures IsRun(w0, labels) && View() == After(w0, labels) && Crash !in labels
    {
      hide Inv, Synced, ReadEnough, IsRun, After, Follow, Returned, Records;
      labels := before;
      var recorded := (n, id, gens[(n, id)].turn) in replay;
      if recorded || reply.asked { labels := AskOnce(w0, labels, at, n, id, reply.canceled); }
      if !recorded { labels := ReturnOnce(w0, labels, at, n, id, reply); }
    }

    method AskOnce(ghost w0: World, ghost before: seq<Label>, at: Address, n: Node, id: Id, canceled: bool)
      returns (ghost labels: seq<Label>)
      requires Synced() && Inv(View()) && ReadEnough(View(), replay)
      requires Generating(View(), at) && Key(View(), at) == (n, id) && gens[(n, id)].stage.Due?
      requires IsRun(w0, before) && View() == After(w0, before) && Crash !in before
      modifies this`gens, this`trace
      ensures Synced() && Inv(View()) && ReadEnough(View(), replay)
      ensures if (n, id, old(gens[(n, id)].turn)) in replay then Turning(at, n, id, old(gens[(n, id)].turn) + 1)
              else Generating(View(), at) && Key(View(), at) == (n, id) && gens[(n, id)] == old(gens[(n, id)]).(stage := Running)
      ensures IsRun(w0, labels) && View() == After(w0, labels) && Crash !in labels
    {
      hide Inv, Synced, ReadEnough, IsRun, After, Follow;
      var g := gens[(n, id)];
      ReadIsRecorded(View(), at, replay);
      StepOf(w0, before, Ask(at, canceled));
      labels := before + [Ask(at, canceled)];
      if (n, id, g.turn) in replay { FollowTurn(g, replay[(n, id, g.turn)], Unkept, canceled); }
      AskTurn(at, canceled);
    }

    method ReturnOnce(ghost w0: World, ghost before: seq<Label>, at: Address, n: Node, id: Id, reply: TurnReply)
      returns (ghost labels: seq<Label>)
      requires Synced() && Inv(View()) && ReadEnough(View(), replay) && ReplyOk(reply)
      requires Generating(View(), at) && Key(View(), at) == (n, id)
      requires gens[(n, id)].stage.Running? ||
               (gens[(n, id)].stage.Due? && !reply.asked && (n, id, gens[(n, id)].turn) !in replay)
      requires IsRun(w0, before) && View() == After(w0, before) && Crash !in before
      modifies this`journal, this`gens
      ensures Synced() && Inv(View()) && ReadEnough(View(), replay) && Turning(at, n, id, old(gens[(n, id)].turn) + 1)
      ensures IsRun(w0, labels) && View() == After(w0, labels) && Crash !in labels
    {
      hide Inv, Synced, ReadEnough, IsRun, After, Returned, Records;
      if gens[(n, id)].stage.Due? { ReadIsRecorded(View(), at, replay); }
      StepOf(w0, before, Return(at, reply.answer, reply.note, reply.canceled));
      labels := before + [Return(at, reply.answer, reply.note, reply.canceled)];
      FollowTurn(gens[(n, id)], reply.answer, reply.note, reply.canceled);
      ReturnTurn(at, reply.answer, reply.note, reply.canceled);
    }

    lemma StepOf(w0: World, before: seq<Label>, l: Label)
      requires Inv(View()) && ReadEnough(View(), replay) && Enabled(View(), l) && !l.Crash?
      requires IsRun(w0, before) && View() == After(w0, before)
      ensures Inv(Apply(View(), l)) && ReadEnough(Apply(View(), l), replay)
      ensures IsRun(w0, before + [l]) && After(w0, before + [l]) == Apply(View(), l)
    {
      hide Inv, ReadEnough, IsRun, After, Enabled, Apply;
      StepKeeps(View(), l);
      ReadEnoughStep(View(), l, replay);
      RunThen(w0, before, l);
    }

    /** Walks the queue once the turn has answered (interactive.go:275-294). */
    method SettleQueue(s: Occurrence, q: seq<Input>) returns (t: Occurrence, finish: bool, stop: bool)
      ensures t == Settle(s, q) && finish == FirstFinish(q).Some? && stop == HasStop(q)
    {
      t, finish, stop := s, false, false;
      for i := 0 to |q|
        invariant t == Settle(s, q[..i]) && finish == FirstFinish(q[..i]).Some? && stop == HasStop(q[..i])
      {
        var e := q[i];
        SettleNext(s, q[..i], e);
        FinishNext(q[..i], e);
        assert q[..i] + [e] == q[..i + 1];
        if e.content.finish {
          finish := true;
          t := t.(consumed := t.consumed + [e.id]);
        } else if e.content.stop {
          stop := true;
          t := t.(consumed := t.consumed + [e.id]);
        } else {
          if e.disposition == Delivered {
            t := t.(consumed := t.consumed + [e.id], messages := t.messages + [User(e.id, e.content.message)]);
          }
          if e.disposition in {Uncertain, Inflight} { t := t.(unresolved := true); }
        }
      }
      assert q[..|q|] == q;
    }

    /** What the settled occurrence becomes (interactive.go:298-325). */
    method CloseTurn(s: Occurrence, q: seq<Input>, outcome: Outcome) returns (r: Occurrence, commits: bool)
      ensures (r, commits) == Closed(s, q, outcome)
    {
      var finish, stop;
      r, finish, stop := SettleQueue(s, q);
      var uncertain := outcome.Failed? && outcome.uncertain;
      var unconfirmedStop := stop && !finish && r.published && uncertain;
      SettleKeepsPublished(s, q);
      if uncertain && !unconfirmedStop { r := r.(unresolved := true); }
      if r.unresolved { return r, true; }
      match outcome {
        case Succeeded(Chat(text)) => r := r.(messages := r.messages + [Assistant(text)]);
        case Succeeded(End) => r := r.(endedBy := ByAgent);
        case Succeeded(Invalid) => return r, false;
        case Failed(canceled, _) =>
          if !unconfirmedStop && ((!finish && !stop) || !canceled) { return r, false; }
      }
      r := r.(active := None, waiting := r.endedBy == Open);
      if finish { r := r.(endedBy := ByHuman, waiting := false); }
      commits := true;
    }

    /** The answer of a running turn (interactive.go:255-330). */
    method CompleteTurn(at: Address, outcome: Outcome, delivered: bool, recorded: bool, committed: bool)
      requires Valid() && at in active && active[at].phase == Turn([]) && active[at].node.address == at
      modifies this`journal, this`cursor, this`states, this`inputs, this`order, this`ended, this`active
      ensures Valid() && Synced() && View() == DoComplete(old(View()), at, outcome, delivered, recorded, committed)
    {
      RefreshInteractions();
      SyncedIsValid();
      var n := active[at].node;
      StoredIsState(n);
      var s := Stored(n);
      if s.active.None? || s.active.value !in inputs || !recorded {
        active := active - {at};
      } else {
        RecordTurn(n, s, inputs[s.active.value], outcome, delivered, committed);
      }
      SyncedIsValid();
    }

    method RecordTurn(n: Node, state: Occurrence, active0: Input, outcome: Outcome, delivered: bool, committed: bool)
      requires Synced() && state == State(View(), n) && active0.id in inputs
      modifies this`journal, this`states, this`inputs, this`active
      ensures Synced() && View() == DoRecord(old(View()), n, active0, outcome, delivered, committed)
    {
      var s, input := state, active0;
      if !s.published && (outcome.Succeeded? || delivered) {
        s := s.(messages := s.messages + [User(input.id, input.content.message)], published := true);
        input := input.(disposition := Delivered);
      } else if !s.published && outcome.Failed? && outcome.canceled {
        input := input.(disposition := Unprocessed);
      }
      var ok := UpdateInput(input, true);
      forall id | id in s.consumed ensures Consumed(View().states, id) { assert ConsumedBy(View().states, n, id); }
      var pending := PendingInput(n.address, s.consumed);
      var r, commits := CloseTurn(s, pending, outcome);
      Finish(n, r, commits, committed);
    }

    method Finish(n: Node, r: Occurrence, commits: bool, committed: bool)
      requires Synced()
      modifies this`journal, this`states, this`active
      ensures Synced() && View() == Conclude(old(View()), n.address, n, (r, commits), committed)
    {
      if !commits {
        active := active - {n.address};
      } else if r.unresolved || r.endedBy != Open {
        CommitAndLeave(n, r, committed);
      } else {
        var ok := CommitAt(n, r, Idle, committed);
      }
    }
  }

  lemma {:induction false} FinishStays(q: seq<Input>, i: nat)
    requires i <= |q| && FirstFinish(q[..i]).Some?
    ensures FirstFinish(q) == FirstFinish(q[..i])
  {
    if !q[0].content.finish {
      assert q[..i][1..] == q[1..][..i - 1];
      FinishStays(q[1..], i - 1);
    }
  }

  lemma {:induction false} SettleKeepsPublished(s: Occurrence, q: seq<Input>)
    ensures Settle(s, q).published == s.published
    decreases q
  {
    if q != [] { SettleKeepsPublished(SettleOne(s, q[0]), q[1..]); }
  }

  lemma QueuedIsStored(w: World, at: Address)
    requires Inv(w) && at in w.loops
    ensures w.loops[at].phase.Turn? && w.loops[at].phase.rest != [] ==> w.loops[at].phase.rest[0].id in w.inputs
    ensures w.loops[at].phase.Sending? ==> w.loops[at].phase.input.id in w.inputs
  {
    assert LoopOk(w, at, w.loops[at]);
    if w.loops[at].phase.Turn? && w.loops[at].phase.rest != [] { assert EntryOk(w, w.loops[at].node, w.loops[at].phase.rest[0]); }
  }

  lemma FollowTurn(g: Gen, a: Answer, note: Note, canceled: bool)
    ensures Follow(g, a, canceled).stage.Over? || (Follow(g, a, canceled).stage.Due? && Follow(g, a, canceled).turn == g.turn + 1)
    ensures Returned(g, a, note, canceled).stage.Over?
            || (Returned(g, a, note, canceled).stage.Due? && Returned(g, a, note, canceled).turn == g.turn + 1)
  {
  }

  lemma NoLabels(w: World)
    ensures IsRun(w, []) && After(w, []) == w
  {
  }

  lemma StepRun(w: World, l: Label)
    requires Enabled(w, l)
    ensures IsRun(w, [l]) && After(w, [l]) == Apply(w, l)
  {
    hide Enabled, Apply;
    assert [l][1..] == [];
  }

  lemma {:induction false} RunThen(w: World, run: seq<Label>, l: Label)
    requires IsRun(w, run) && Enabled(After(w, run), l)
    ensures IsRun(w, run + [l]) && After(w, run + [l]) == Apply(After(w, run), l)
    decreases run
  {
    hide Enabled, Apply;
    if run == [] {
      assert run + [l] == [l];
      StepRun(w, l);
    } else {
      assert (run + [l])[1..] == run[1..] + [l];
      RunThen(Apply(w, run[0]), run[1..], l);
    }
  }

  lemma CloseFacts(w: World, scope: string, count: nat)
    ensures var v := DoClose(w, scope, count); v.order == w.order && v.states == w.states && v.inputs.Keys == w.inputs.Keys
  {
  }

  lemma CloseNone(w: World, scope: string)
    ensures DoClose(w, scope, 0) == w
  {
    assert DoClose(w, scope, 0).inputs == w.inputs;
  }

  /** Closing one more input of the acceptance order. */
  lemma CloseNext(w: World, scope: string, count: nat)
    requires Distinct(w.order) && count < |w.order| && w.order[count] in w.inputs
    ensures var id := w.order[count];
            var v := DoClose(w, scope, count);
            v.inputs[id] == w.inputs[id] &&
            DoClose(w, scope, count + 1) == if Closes(w, scope, id)
              then v.(inputs := v.inputs[id := w.inputs[id].(disposition := Unprocessed)]) else v
  {
    var id, v, u := w.order[count], DoClose(w, scope, count), DoClose(w, scope, count + 1);
    assert FirstOf(w.order, count + 1) == FirstOf(w.order, count) + [id];
    assert id !in FirstOf(w.order, count);
    assert u.inputs == if Closes(w, scope, id)
              then v.inputs[id := w.inputs[id].(disposition := Unprocessed)] else v.inputs;
  }
}
