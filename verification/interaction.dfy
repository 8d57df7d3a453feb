/** The durable interaction protocol of interactive.go as a transition system.

Each label is one region that runs under interactionMu, one answer of the harness, or a crash. What
survives a crash is what the journal committed: `states`, `inputs` and `settled`. The trace is which prompts are
taken up, what the harness is asked and what it answers to a steer. interaction_run.dfy proves the code's loops
and maps against these functions. */
module Interaction {
  import opened Wrappers

  datatype Address = Address(owner: string, name: string)
  /** An occurrence: the ordinal-th use of its address. */
  datatype Node = Node(address: Address, ordinal: nat)
  type Id = string

  datatype Disposition = Pending | Inflight | Delivered | Uncertain | Unprocessed
  datatype Content = Content(address: Address, message: string, finish: bool, stop: bool,
                             configure: bool, model: string, effort: string)
  datatype Input = Input(id: Id, content: Content, disposition: Disposition)

  datatype Entry = User(id: Id, text: string) | Assistant(text: string)
  datatype Ending = Open | ByAgent | ByHuman
  datatype Occurrence = Occurrence(active: Option<Id>, published: bool, unresolved: bool,
                                   consumed: seq<Id>, messages: seq<Entry>, endedBy: Ending, waiting: bool)

  /** Where one consumer loop stands: no turn, a turn with the rest of a snapshot of the queue still to
  look at, or a steer whose answer is outstanding. */
  datatype Phase = Idle | Turn(rest: seq<Input>) | Sending(input: Input, rest: seq<Input>)
  datatype Loop = Loop(node: Node, phase: Phase)

  datatype Event =
    | Prompted(node: Node, id: Id)
    | Asked(node: Node, id: Id, turn: nat)
    | SteerSent(node: Node, id: Id)
    | Landed(node: Node, id: Id)
    | Dropped(node: Node, id: Id)
    | Doubtful(node: Node, id: Id)

  datatype Decision = Chat(text: string) | End | Invalid
  datatype Outcome = Succeeded(decision: Decision) | Failed(canceled: bool, uncertain: bool)

  /** What one turn returns. The flags are what the callers ask of an error: whether it is an invalid answer, whether its
  text is the provider's session error, whether it is a cancellation, whether the outcome is unknown. */
  datatype Answer = Said(decision: Decision) | Erred(invalid: bool, provider: bool, canceled: bool, uncertain: bool)

  /** What becomes of a turn's outcome: it is recorded, in the form in which it will be read again; nothing definite is;
  or the journal refuses it. */
  datatype Note = Kept(answer: Answer) | Unkept | Refused

  /** The generation of a prompt: the turn it is at, its invalid answers and provider failures so far, and whether the
  turn is still to be asked, is being asked, or was the last. */
  datatype Gen = Gen(turn: nat, invalid: nat, failures: nat, stage: Stage)
  datatype Stage = Due | Running | Over(outcome: Outcome)

  const START := Gen(1, 0, 0, Due)
  const INVALID: nat := 3
  const FAILURES: nat := 2

  /** `entered` are the occurrences that this process has entered, and `gens` the generations that it has begun.
  `settled` holds the recorded outcome of every turn whose outcome is known, by its occurrence, its prompt and its place
  in the generation; such a turn is answered from it and the harness is not asked (session.go:405-419). */
  datatype World = World(states: map<Node, Occurrence>, entered: set<Node>, inputs: map<Id, Input>, order: seq<Id>,
                         ended: set<string>, loops: map<Address, Loop>, trace: seq<Event>,
                         settled: map<(Node, Id, nat), Answer>, gens: map<(Node, Id), Gen>)

  datatype Label =
    | Accept(id: Id, content: Content, terminal: bool, turnMatches: bool)
    | Enter(node: Node)
    | Look(at: Address, configured: bool, committed: bool)
    | Wake(at: Address)
    | Steer(at: Address, recorded: bool)
    | Answer(at: Address, landed: bool, failed: bool, recorded: bool)
    | Ask(at: Address, canceled: bool)
    | Return(at: Address, answer: Answer, note: Note, canceled: bool)
    | Complete(at: Address, outcome: Outcome, delivered: bool, recorded: bool, committed: bool)
    | Leave(at: Address)
    | CloseInputs(scope: string, count: nat)
    | EndScope(scope: string)
    | Crash

  const NEW := Occurrence(None, false, false, [], [], Open, true)
  const INIT := World(map[], {}, map[], [], {}, map[], [], map[], map[])

  function State(w: World, n: Node): Occurrence { if n in w.states then w.states[n] else NEW }

  ghost predicate ConsumedBy(states: map<Node, Occurrence>, n: Node, id: Id) {
    n in states && id in states[n].consumed
  }
  ghost predicate Consumed(states: map<Node, Occurrence>, id: Id) { exists n :: ConsumedBy(states, n, id) }

  ghost predicate IsPending(w: World, at: Address, id: Id) {
    id in w.inputs && w.inputs[id].content.address == at && w.inputs[id].disposition != Unprocessed && !Consumed(w.states, id)
  }

  /** The pending inputs of an address, in acceptance order (interactive.go:393-413). */
  ghost function Queue(w: World, at: Address, ids: seq<Id>): seq<Input> {
    if ids == [] then []
    else
      var rest := Queue(w, at, ids[1..]);
      if IsPending(w, at, ids[0]) then [w.inputs[ids[0]]] + rest else rest
  }

  ghost function PendingAt(w: World, at: Address): seq<Input> { Queue(w, at, w.order) }

  function FirstFinish(q: seq<Input>): Option<Input> {
    if q == [] then None else if q[0].content.finish then Some(q[0]) else FirstFinish(q[1..])
  }

  function Commit(w: World, n: Node, s: Occurrence): World { w.(states := w.states[n := s]) }
  function Put(w: World, input: Input, d: Disposition): World {
    w.(inputs := w.inputs[input.id := input.(disposition := d)])
  }
  function Exit(w: World, at: Address): World { w.(loops := w.loops - {at}) }
  function At(w: World, at: Address, n: Node, phase: Phase): World { w.(loops := w.loops[at := Loop(n, phase)]) }
  function Emit(w: World, e: Event): World { w.(trace := w.trace + [e]) }

  // ---- acceptance (interactive.go:460-522) ----

  datatype Verdict = Accepted | Duplicate | Conflict | Rejected

  ghost predicate Ready(w: World, s: Occurrence, at: Address) { s.waiting && PendingAt(w, at) == [] }

  ghost function Judge(w: World, id: Id, c: Content, terminal: bool, turnMatches: bool): Verdict {
    if id == "" then Rejected
    else if id in w.inputs then (if w.inputs[id].content == c then Duplicate else Conflict)
    else if terminal || !turnMatches then Rejected
    else if c.configure && (exists n | n in w.states.Keys + w.entered ::
              n.address == c.address && State(w, n).endedBy == Open && !Ready(w, State(w, n), c.address)) then Rejected
    else if "" in w.ended || c.address.owner in w.ended then Rejected
    else if exists f | f in w.inputs :: w.inputs[f].content.address == c.address && w.inputs[f].content.finish then Rejected
    else if c.address !in w.loops then Rejected
    else Accepted
  }

  ghost function DoAccept(w: World, id: Id, c: Content, terminal: bool, turnMatches: bool): World {
    if Judge(w, id, c, terminal, turnMatches).Accepted?
    then w.(inputs := w.inputs[id := Input(id, c, Pending)], order := w.order + [id])
    else w
  }

  // ---- the consumer loop (interactive.go:83-332) ----

  function DoEnter(w: World, n: Node): World {
    if State(w, n).endedBy != Open then w
    else At(w.(entered := w.entered + {n}), n.address, n, Idle)
  }

  /** The top of the loop with no turn running (interactive.go:130-216). */
  ghost function DoLook(w: World, at: Address, configured: bool, committed: bool): World
    requires at in w.loops
  {
    var n := w.loops[at].node;
    var s := State(w, n);
    var q := PendingAt(w, at);
    if s.active.None? && FirstFinish(q).Some? then DoFinish(w, n, FirstFinish(q).value.id, committed)
    else if s.active.Some? && s.active.value in w.inputs then DoTake(w, n, w.inputs[s.active.value], configured, committed)
    else if q != [] then DoTake(w, n, q[0], configured, committed)
    else if committed then At(Commit(w, n, s.(waiting := true)), at, n, Idle)
    else Exit(w, at)
  }

  function DoFinish(w: World, n: Node, id: Id, committed: bool): World {
    var s := State(w, n);
    var s' := s.(consumed := s.consumed + [id], endedBy := ByHuman, waiting := false);
    Exit(if committed then Commit(w, n, s') else w, n.address)
  }

  /** The active input again after a restart, or the head of the queue. */
  function DoTake(w: World, n: Node, input: Input, configured: bool, committed: bool): World {
    var s := State(w, n);
    if input.disposition in {Uncertain, Inflight} then
      Exit(if committed then Commit(w, n, s.(unresolved := true)) else w, n.address)
    else if !committed || (input.content.configure && !configured) then Exit(w, n.address)
    else if input.content.configure || input.content.stop then
      At(Commit(w, n, s.(consumed := s.consumed + [input.id])), n.address, n, Idle)
    else Dispatch(At(Commit(w, n, Begun(s, input.id)), n.address, n, Turn([])), n, input.id)
  }

  /** A generation of the prompt begins. */
  function Dispatch(w: World, n: Node, id: Id): World { Emit(w.(gens := w.gens[(n, id) := START]), Prompted(n, id)) }

  function Begun(s: Occurrence, id: Id): Occurrence {
    if s.active.Some? then s.(waiting := false)
    else s.(consumed := s.consumed + [id], active := Some(id), published := false, waiting := false)
  }

  ghost function DoWake(w: World, at: Address): World
    requires at in w.loops
  {
    At(w, at, w.loops[at].node, Turn(PendingAt(w, at)))
  }

  /** The next queued input while a turn runs; the snapshot may be older than the stored disposition. */
  function DoSteer(w: World, at: Address, recorded: bool): World
    requires at in w.loops && w.loops[at].phase.Turn? && w.loops[at].phase.rest != []
  {
    var Loop(n, Turn(rest)) := w.loops[at];
    var input := rest[0];
    if input.content.finish || input.content.stop || input.content.configure || input.disposition != Pending then
      At(w, at, n, Turn(rest[1..]))
    else if !recorded then Exit(w, at)
    else Emit(At(Put(w, input, Inflight), at, n, Sending(input, rest[1..])), SteerSent(n, input.id))
  }

  function DoAnswer(w: World, at: Address, landed: bool, failed: bool, recorded: bool): World
    requires at in w.loops && w.loops[at].phase.Sending?
  {
    var Loop(n, Sending(input, rest)) := w.loops[at];
    if !recorded then Exit(w, at)
    else if failed then Emit(At(Put(w, input, Uncertain), at, n, Turn(rest)), Doubtful(n, input.id))
    else if landed then Emit(At(Put(w, input, Delivered), at, n, Turn(rest)), Landed(n, input.id))
    else Emit(At(Put(w, input, Pending), at, n, Turn(rest)), Dropped(n, input.id))
  }

  /** What the completed turn takes off the queue, one pending input at a time (interactive.go:276-294). */
  function SettleOne(s: Occurrence, e: Input): Occurrence {
    if e.content.finish || e.content.stop then s.(consumed := s.consumed + [e.id])
    else if e.disposition == Delivered
    then s.(consumed := s.consumed + [e.id], messages := s.messages + [User(e.id, e.content.message)])
    else if e.disposition in {Uncertain, Inflight} then s.(unresolved := true) else s
  }

  function Settle(s: Occurrence, q: seq<Input>): Occurrence
    decreases q
  {
    if q == [] then s else Settle(SettleOne(s, q[0]), q[1..])
  }

  predicate HasStop(q: seq<Input>) { exists i | 0 <= i < |q| :: q[i].content.stop && !q[i].content.finish }

  /** The occurrence once its running turn answered, and whether it is committed. */
  function Closed(s: Occurrence, q: seq<Input>, outcome: Outcome): (Occurrence, bool) {
    var finish, stop := FirstFinish(q).Some?, HasStop(q);
    var uncertain := Unknown(outcome);
    var canceled := outcome.Failed? && outcome.canceled;
    var unconfirmedStop := stop && !finish && s.published && uncertain;
    var s2 := Settle(s, q);
    var s3 := if uncertain && !unconfirmedStop then s2.(unresolved := true) else s2;
    if s3.unresolved then (s3, true)
    else if outcome == Succeeded(Invalid) then (s3, false)
    else if outcome.Failed? && !unconfirmedStop && ((!finish && !stop) || !canceled) then (s3, false)
    else
      var s4 := match outcome
                case Succeeded(Chat(text)) => s3.(messages := s3.messages + [Assistant(text)])
                case Succeeded(End) => s3.(endedBy := ByAgent)
                case _ => s3;
      var s5 := if finish then s4.(endedBy := ByHuman) else s4;
      (s5.(active := None, waiting := s5.endedBy == Open), true)
  }

  function Publishes(s: Occurrence, outcome: Outcome, delivered: bool): bool {
    !s.published && (outcome.Succeeded? || delivered)
  }

  /** The occurrence with its prompt published, if this is when its delivery becomes known. */
  function Published(s: Occurrence, input: Input, publish: bool): Occurrence {
    if publish then s.(messages := s.messages + [User(input.id, input.content.message)], published := true) else s
  }

  function PromptFate(s: Occurrence, input: Input, outcome: Outcome, delivered: bool): Disposition {
    if Publishes(s, outcome, delivered) then Delivered
    else if !s.published && outcome.Failed? && outcome.canceled then Unprocessed
    else input.disposition
  }

  predicate Unknown(outcome: Outcome) { outcome.Failed? && outcome.uncertain }

  // ---- the turns of a generation (session.go:257-316) ----

  /** After a turn: an invalid answer is asked for again, at most twice; a provider's session error once, unless the
  context is canceled; anything else ends the generation. */
  function Follow(g: Gen, a: Answer, canceled: bool): Gen {
    match a
    case Said(decision) => g.(stage := Over(Succeeded(decision)))
    case Erred(invalid, provider, c, uncertain) =>
      if invalid && g.invalid + 1 < INVALID then Gen(g.turn + 1, g.invalid + 1, g.failures, Due)
      else if !invalid && provider && g.failures + 1 < FAILURES && !canceled then Gen(g.turn + 1, g.invalid, g.failures + 1, Due)
      else g.(stage := Over(Failed(c, uncertain)))
  }

  /** What the journal gives back: a success, or an error of which only the text is left (replay.go:79-91). */
  predicate Replays(a: Answer) { a.Erred? ==> !a.invalid && !a.canceled && !a.uncertain }

  /** A success is recorded as it is, an unknown outcome not at all (run_recording.go:138-169). */
  predicate Records(a: Answer, note: Note) {
    match note
    case Kept(kept) => Replays(kept) && if a.Said? then kept == a else !a.uncertain
    case Unkept => a.Erred?
    case Refused => true
  }

  /** The consumer's own generation, while one is under way. */
  predicate Generating(w: World, at: Address) {
    && at in w.loops && !w.loops[at].phase.Idle?
    && var active := State(w, w.loops[at].node).active;
       active.Some? && (w.loops[at].node, active.value) in w.gens
  }

  function Key(w: World, at: Address): (Node, Id)
    requires Generating(w, at)
  {
    (w.loops[at].node, State(w, w.loops[at].node).active.value)
  }

  function Advance(w: World, key: (Node, Id), g: Gen): World { w.(gens := w.gens[key := g]) }

  /** The next turn is answered from the record, or the harness is asked. */
  function DoAsk(w: World, at: Address, canceled: bool): World
    requires Generating(w, at)
  {
    var key, g := Key(w, at), w.gens[Key(w, at)];
    var turn := (key.0, key.1, g.turn);
    if turn in w.settled then Advance(w, key, Follow(g, w.settled[turn], canceled))
    else Emit(Advance(w, key, g.(stage := Running)), Asked(key.0, key.1, g.turn))
  }

  /** A turn can fail before the harness is asked; one that is answered from the record can only fail plainly. */
  predicate CanReturn(w: World, at: Address, a: Answer, note: Note) {
    && Generating(w, at)
    && var key, g := Key(w, at), w.gens[Key(w, at)];
       match g.stage
       case Running => Records(a, note)
       case Due =>
         a.Erred? && if (key.0, key.1, g.turn) in w.settled then note.Unkept? && !a.invalid && !a.provider else Records(a, note)
       case Over(_) => false
  }

  /** Once a write was refused no further turn of the generation is asked. */
  function Returned(g: Gen, a: Answer, note: Note, canceled: bool): Gen {
    var g' := Follow(g, a, canceled);
    if note.Refused? && g'.stage.Due? then g'.(stage := Over(Failed(false, false))) else g'
  }

  function DoReturn(w: World, at: Address, a: Answer, note: Note, canceled: bool): World
    requires Generating(w, at)
  {
    var key, g := Key(w, at), w.gens[Key(w, at)];
    var w' := Advance(w, key, Returned(g, a, note, canceled));
    if note.Kept? then w'.(settled := w'.settled[(key.0, key.1, g.turn) := note.answer]) else w'
  }

  /** The answer of a running turn (interactive.go:255-330). */
  ghost function DoComplete(w: World, at: Address, outcome: Outcome, delivered: bool,
                            recorded: bool, committed: bool): World
    requires at in w.loops
  {
    var n := w.loops[at].node;
    var active := State(w, n).active;
    if active.None? || active.value !in w.inputs || !recorded then Exit(w, at)
    else DoRecord(w, n, w.inputs[active.value], outcome, delivered, committed)
  }

  /** The prompt's fate is stored first, then the occurrence is closed over the queue as it then is. */
  ghost function DoRecord(w: World, n: Node, input: Input, outcome: Outcome, delivered: bool, committed: bool): World {
    var s := State(w, n);
    var s1 := Published(s, input, Publishes(s, outcome, delivered));
    var w1 := Put(w, input, PromptFate(s, input, outcome, delivered));
    Conclude(w1, n.address, n, Closed(s1, PendingAt(w1, n.address), outcome), committed)
  }

  function Conclude(w: World, at: Address, n: Node, closed: (Occurrence, bool), committed: bool): World {
    var (s, commits) := closed;
    if !commits || !committed then Exit(w, at)
    else if s.unresolved || s.endedBy != Open then Exit(Commit(w, n, s), at)
    else At(Commit(w, n, s), at, n, Idle)
  }

  // ---- the rest of the world ----

  predicate InScope(scope: string, owner: string) { scope == "" || owner == scope || (scope + "/") <= owner }

  /** interactive.go:542-567, stopped after `count` inputs by a failed write. */
  ghost function DoClose(w: World, scope: string, count: nat): World {
    w.(inputs := map id | id in w.inputs ::
      if id in FirstOf(w.order, count) && Closes(w, scope, id)
      then w.inputs[id].(disposition := Unprocessed) else w.inputs[id])
  }

  function FirstOf(order: seq<Id>, count: nat): seq<Id> { if count < |order| then order[..count] else order }

  ghost predicate Closes(w: World, scope: string, id: Id)
    requires id in w.inputs
  {
    !Consumed(w.states, id) && w.inputs[id].disposition !in {Unprocessed, Uncertain} &&
    InScope(scope, w.inputs[id].content.address.owner)
  }

  ghost predicate Enabled(w: World, l: Label) {
    match l
    case Enter(n) => n.address !in w.loops && n !in w.entered
    case Look(at, _, _) => at in w.loops && w.loops[at].phase.Idle?
    case Wake(at) => at in w.loops && w.loops[at].phase == Turn([])
    case Steer(at, _) => at in w.loops && w.loops[at].phase.Turn? && w.loops[at].phase.rest != []
    case Answer(at, _, _, _) => at in w.loops && w.loops[at].phase.Sending?
    case Ask(at, _) => Generating(w, at) && w.gens[Key(w, at)].stage.Due?
    case Return(at, answer, note, _) => CanReturn(w, at, answer, note)
    case Complete(at, outcome, _, _, _) =>
      Generating(w, at) && w.loops[at].phase == Turn([]) && w.gens[Key(w, at)].stage == Over(outcome)
    case Leave(at) => at in w.loops && !w.loops[at].phase.Sending?
    case _ => true
  }

  ghost function Apply(w: World, l: Label): World
    requires Enabled(w, l)
  {
    match l
    case Accept(id, c, terminal, turnMatches) => DoAccept(w, id, c, terminal, turnMatches)
    case Enter(n) => DoEnter(w, n)
    case Look(at, configured, committed) => DoLook(w, at, configured, committed)
    case Wake(at) => DoWake(w, at)
    case Steer(at, recorded) => DoSteer(w, at, recorded)
    case Answer(at, landed, failed, recorded) => DoAnswer(w, at, landed, failed, recorded)
    case Ask(at, canceled) => DoAsk(w, at, canceled)
    case Return(at, answer, note, canceled) => DoReturn(w, at, answer, note, canceled)
    case Complete(at, outcome, delivered, recorded, committed) => DoComplete(w, at, outcome, delivered, recorded, committed)
    case Leave(at) => Exit(w, at)
    case CloseInputs(scope, count) => DoClose(w, scope, count)
    case EndScope(scope) => w.(ended := w.ended + {scope})
    case Crash => w.(loops := map[], entered := {}, gens := map[])
  }
}
