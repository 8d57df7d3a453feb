/** Recovery of a turn whose start or stream was lost (codex/recovery.go:85-246, codex/codex.go:385-403,
478-501), as a machine whose labels are the answers of the daemon and the acts of the operator. Snapshots are
arbitrary here; recovery_daemon.dfy adds a daemon that tells the truth. */
module Recovery {
  import opened Wrappers

  datatype Status = InProgress | Completed | Failed | Interrupted
  datatype Item = UserMessage(texts: seq<string>) | AgentMessage(text: string, final: bool) | OtherItem
  datatype Turn = Turn(id: string, status: Status, items: seq<Item>)
  datatype ThreadStatus = Idle | Active | Elsewhere
  datatype Snapshot = Snapshot(status: ThreadStatus, turns: seq<Turn>)

  const ATTEMPTS: nat := 3
  const RESUME := "resume"
  const FOLLOW_UP := "Finish the original task:\n\n"

  // ---- matching native turns ----

  function FindTurn(turns: seq<Turn>, id: string): Option<Turn> {
    if turns == [] then None
    else if id != "" && turns[0].id == id then Some(turns[0])
    else FindTurn(turns[1..], id)
  }

  predicate Says(item: Item, prompt: string) { item.UserMessage? && prompt in item.texts }

  /** How many user messages of a turn are the prompt. */
  function Matches(items: seq<Item>, prompt: string): nat {
    if items == [] then 0
    else Matches(items[..|items| - 1], prompt) + (if Says(items[|items| - 1], prompt) then 1 else 0)
  }

  function Copies(turn: Turn, n: nat): seq<Turn> { if n == 0 then [] else Copies(turn, n - 1) + [turn] }

  /** The candidates for a lost start: a new turn once for every matching user message in it. */
  function NewTurns(known: set<string>, turns: seq<Turn>, prompt: string): seq<Turn> {
    if turns == [] then []
    else
      var last := turns[|turns| - 1];
      NewTurns(known, turns[..|turns| - 1], prompt) +
      (if last.id in known then [] else Copies(last, Matches(last.items, prompt)))
  }

  function Ids(turns: seq<Turn>): set<string> { set t | t in turns :: t.id }

  /** The last agent message, an explicit final answer winning over messages without one. */
  function NativeAnswer(items: seq<Item>): (string, bool) {
    if items == [] then ("", false)
    else
      var (answer, final) := NativeAnswer(items[..|items| - 1]);
      var item := items[|items| - 1];
      if item.AgentMessage? && (item.final || !final) then (item.text, item.final) else (answer, final)
  }

  predicate Space(c: char) { c in {' ', '\t', '\n', '\r'} }
  predicate Blank(s: string) { forall c | c in s :: Space(c) }

  // ---- the machine of one call ----

  datatype Result = Answered(text: string) | Errored
  datatype Phase =
    | Fresh
    | Reading(within: Option<nat>)
    | Trying(attempt: nat)
    | Restarting(attempt: nat, seen: Snapshot)
    | Waiting
    | Ended(result: Result)

  datatype Client = Client(phase: Phase, paused: bool, resume: bool, turn: string, confirmed: bool,
                           known: set<string>, prompt: string, task: string, tally: Tally)

  /** What an observer counts. */
  datatype Tally = Tally(starts: nat, accepted: nat, taken: nat, pauses: nat, looks: nat)

  function Init(task: string): Client {
    Client(Fresh, false, false, "", false, {}, task, task, Tally(0, 0, 0, 0, 0))
  }

  /** A request to start either is answered with the id of its turn, fails without an answer, or is refused. */
  datatype Reply = Acknowledged(id: string) | Lost | Refused

  /** Where a call is when it notices that its context was canceled. */
  datatype Stage = AtStart | AtRead | AtTry | AtRestart | AtPause | AtEnd

  function StageOf(p: Phase): Stage {
    match p
    case Fresh => AtStart
    case Reading(_) => AtRead
    case Trying(_) => AtTry
    case Restarting(_, _) => AtRestart
    case Waiting => AtPause
    case Ended(_) => AtEnd
  }

  datatype Label =
    | Start(before: Snapshot, reply: Reply)
    | ReadEnds(result: Result)
    | ReadLost
    | Expire
    | AttemptLost
    | Look(snapshot: Snapshot)
    | Restart(reply: Reply)
    | Steer(message: string)
    | Take
    | Cancel(at: Stage)

  datatype Choice = Finish(text: string) | Fail | Follow | Again | Retry

  /** The turn to track, once a snapshot is known (recovery.go:121-136). */
  function Track(c: Client, s: Snapshot): string {
    if c.turn != "" then c.turn
    else
      var candidates := NewTurns(c.known, s.turns, c.prompt);
      if |candidates| == 1 then candidates[0].id else ""
  }

  /** The switch of recovery.go:137-223. */
  function Decide(c: Client, s: Snapshot, turn: string): Choice {
    var current := FindTurn(s.turns, turn);
    if current.Some? && current.value.status.Completed? then
      var answer := NativeAnswer(current.value.items).0;
      if Blank(answer) then Retry else Finish(answer)
    else if current.Some? && current.value.status.Failed? then Fail
    else if current.Some? && current.value.status.InProgress? && s.status.Active? then Follow
    else if c.confirmed && s.status.Idle? && (current.Some? || turn == "") then Again
    else Retry
  }

  function Pause(c: Client): Client {
    c.(phase := Waiting, paused := true, tally := c.tally.(pauses := c.tally.pauses + 1))
  }

  /** After a try that decided nothing: the next of the batch, or the pause. */
  function NextTry(c: Client, attempt: nat): Client {
    if attempt < ATTEMPTS then c.(phase := Trying(attempt + 1)) else Pause(c)
  }

  /** A call of recoverTurn. */
  function Recover(c: Client): Client { c.(phase := Trying(1), confirmed := false) }

  function End(c: Client, r: Result): Client { c.(phase := Ended(r)) }

  function Sent(c: Client, known: set<string>, prompt: string): Client {
    c.(known := known, prompt := prompt, turn := "", confirmed := false,
       tally := c.tally.(starts := c.tally.starts + 1))
  }

  function Counted(c: Client): Client { c.(tally := c.tally.(looks := c.tally.looks + 1)) }

  predicate Busy(turns: seq<Turn>) { exists t :: t in turns && t.status.InProgress? }

  predicate Enabled(c: Client, l: Label) {
    match l
    case Start(before, reply) => c.phase.Fresh? && !Busy(before.turns) && (reply.Acknowledged? ==> reply.id != "")
    case ReadEnds(_) => c.phase.Reading?
    case ReadLost => c.phase.Reading?
    case Expire => c.phase.Trying?
    case AttemptLost => c.phase.Trying?
    case Look(_) => c.phase.Trying?
    case Restart(reply) => c.phase.Restarting? && (reply.Acknowledged? ==> reply.id != "")
    case Steer(_) => !c.phase.Ended? && !c.phase.Fresh?
    case Take => c.phase.Waiting? && c.resume
    case Cancel(at) => at == StageOf(c.phase) && !at.AtEnd?
  }

  function Trim(s: string): string
  {
    if s == "" then s else if Space(s[0]) then Trim(s[1..])
    else if Space(s[|s| - 1]) then Trim(s[..|s| - 1]) else s
  }

  /** codex.go:488-501: a resume is taken once per pause; any other message is an ordinary steer or an error. */
  function Steered(c: Client, message: string): Client {
    if !c.paused || Trim(message) != RESUME || c.resume then c
    else c.(resume := true, paused := false, tally := c.tally.(accepted := c.tally.accepted + 1))
  }

  /** What `Steer` tells the operator. */
  predicate SteerLands(c: Client, message: string) { c.paused && Trim(message) == RESUME }

  function Looked(c: Client, s: Snapshot): Client
    requires c.phase.Trying?
  {
    var k, turn := c.phase.attempt, Track(c, s);
    var c' := Counted(c).(turn := turn);
    match Decide(c, s, turn)
    case Finish(text) => End(c', Answered(text))
    case Fail => End(c', Errored)
    case Follow => c'.(phase := Reading(Some(k)))
    case Again => c'.(phase := Restarting(k, s))
    case Retry => NextTry(c', k)
  }

  function Next(c: Client, l: Label): Client
    requires Enabled(c, l)
  {
    match l
    case Start(before, reply) =>
      var c' := Sent(c, Ids(before.turns), c.task);
      (match reply
       case Acknowledged(id) => c'.(phase := Reading(None), turn := id)
       case Lost => Recover(c')
       case Refused => End(c', Errored))
    case ReadEnds(result) => End(c, result)
    case ReadLost => if c.phase.within.Some? then NextTry(c, c.phase.within.value) else Recover(c)
    case Expire => Pause(c)
    case AttemptLost => NextTry(Counted(c), c.phase.attempt)
    case Look(s) => Looked(c, s)
    case Restart(reply) =>
      var c' := Sent(c, Ids(c.phase.seen.turns), FOLLOW_UP + c.task);
      (match reply
       case Acknowledged(id) => c'.(phase := Reading(None), turn := id)
       case Lost => NextTry(c', c.phase.attempt)
       case Refused => End(c', Errored))
    case Steer(message) => Steered(c, message)
    case Take => c.(phase := Trying(1), resume := false, paused := false, confirmed := true,
                    tally := c.tally.(taken := c.tally.taken + 1))
    case Cancel(_) => End(c, Errored)
  }

  // ---- what every run keeps ----

  predicate AttemptOk(k: nat) { 1 <= k <= ATTEMPTS }

  function Tries(c: Client): nat {
    match c.phase
    case Trying(k) => if AttemptOk(k) then ATTEMPTS + 1 - k else 0
    case Reading(Some(k)) => if AttemptOk(k) then ATTEMPTS - k else 0
    case Restarting(k, _) => if AttemptOk(k) then ATTEMPTS - k else 0
    case Reading(None) => ATTEMPTS
    case _ => 0
  }

  predicate Phases(c: Client) {
    && (c.phase.Trying? ==> AttemptOk(c.phase.attempt))
    && (c.phase.Restarting? ==> AttemptOk(c.phase.attempt) && c.confirmed)
    && (c.phase.Reading? && c.phase.within.Some? ==> AttemptOk(c.phase.within.value))
    && (c.phase.Fresh? ==> c.tally == Tally(0, 0, 0, 0, 0) && !c.confirmed)
  }

  predicate Resumes(c: Client) {
    && (c.paused ==> !c.resume && (c.phase.Waiting? || c.phase.Ended?))
    && (c.resume ==> c.phase.Waiting? || c.phase.Ended?)
    && (c.phase.Waiting? ==> c.paused || c.resume)
    && c.tally.taken + (if c.resume then 1 else 0) == c.tally.accepted
    && c.tally.accepted + (if c.paused then 1 else 0) == c.tally.pauses
  }

  predicate Bounds(c: Client) {
    && (c.phase.Fresh? || c.tally.starts + (if c.confirmed then 1 else 0) <= 1 + c.tally.taken)
    && c.tally.looks + Tries(c) <= ATTEMPTS * (c.tally.starts + c.tally.taken)
  }

  predicate Inv(c: Client) { Phases(c) && Resumes(c) && Bounds(c) }

  /** When the switch asks for another start. */
  lemma AgainOf(c: Client, s: Snapshot, turn: string)
    ensures Decide(c, s, turn).Again? <==> c.confirmed && s.status.Idle? && match FindTurn(s.turns, turn)
                                           case None => turn == ""
                                           case Some(t) => t.status !in {Completed, Failed}
  {
  }

  lemma LookKeeps(c: Client, s: Snapshot)
    requires Inv(c) && c.phase.Trying?
    ensures Inv(Looked(c, s))
  {
    hide Track, Decide;
    AgainOf(c, s, Track(c, s));
  }

  lemma StepKeeps(c: Client, l: Label)
    requires Inv(c) && Enabled(c, l)
    ensures Inv(Next(c, l))
  {
    match l
    case Look(s) => LookKeeps(c, s);
    case Restart(_) => RestartKeeps(c, l);
    case Start(_, _) => RestartKeeps(c, l);
    case _ =>
  }

  lemma RestartKeeps(c: Client, l: Label)
    requires Inv(c) && Enabled(c, l) && (l.Restart? || l.Start?)
    ensures Inv(Next(c, l))
  {
  }

  predicate IsRun(c: Client, run: seq<Label>)
    decreases run, 0
  {
    run == [] || (IsRun(c, run[..|run| - 1]) && Enabled(After(c, run[..|run| - 1]), run[|run| - 1]))
  }

  function After(c: Client, run: seq<Label>): Client
    requires IsRun(c, run)
    decreases run, 1
  {
    if run == [] then c else Next(After(c, run[..|run| - 1]), run[|run| - 1])
  }

  lemma {:induction false} RunKeeps(c: Client, run: seq<Label>)
    requires Inv(c) && IsRun(c, run)
    ensures Inv(After(c, run))
    decreases run
  {
    if run != [] {
      RunKeeps(c, run[..|run| - 1]);
      StepKeeps(After(c, run[..|run| - 1]), run[|run| - 1]);
    }
  }

  /** Whatever replies are lost: one start, plus at most one for every resume of the operator; at most one resume
  taken for every pause; and at most three reads of history for every start and every resume. */
  lemma StartsAreBounded(task: string, run: seq<Label>)
    requires IsRun(Init(task), run)
    ensures var t := After(Init(task), run).tally;
            t.starts <= 1 + t.taken && t.taken <= t.accepted <= t.pauses && t.looks <= 3 * (t.starts + t.taken)
  {
    RunKeeps(Init(task), run);
  }

  /** A resume that `Steer` reports as landed is never lost: it is the one that the paused call then takes. */
  lemma ResumeIsNotLost(task: string, run: seq<Label>, message: string)
    requires IsRun(Init(task), run + [Steer(message)]) && SteerLands(After(Init(task), run), message)
    ensures var c := After(Init(task), run + [Steer(message)]);
            && c.resume && !c.paused && Enabled(c, Take) && Next(c, Take).confirmed
            && c.tally.accepted == After(Init(task), run).tally.accepted + 1
            && (forall other :: Steered(c, other) == c)
  {
    assert (run + [Steer(message)])[..|run|] == run;
    RunKeeps(Init(task), run);
  }

  /** A recovery start is sent only after the operator confirmed, and only when the snapshot it acts on was idle
  and the tracked turn was neither completed nor failed. */
  lemma RestartIsJustified(task: string, run: seq<Label>, s: Snapshot)
    requires IsRun(Init(task), run + [Look(s)]) && After(Init(task), run + [Look(s)]).phase.Restarting?
    ensures Justified(After(Init(task), run + [Look(s)]), s)
  {
    assert (run + [Look(s)])[..|run|] == run;
    LookJustifies(After(Init(task), run), s);
  }

  predicate Justified(c: Client, s: Snapshot) {
    && c.confirmed && s.status.Idle? && c.phase.Restarting? && c.phase.seen == s
    && match FindTurn(s.turns, c.turn)
       case None => c.turn == ""
       case Some(t) => t.id == c.turn && t.status !in {Completed, Failed}
  }

  lemma LookJustifies(c: Client, s: Snapshot)
    requires c.phase.Trying? && Looked(c, s).phase.Restarting?
    ensures Justified(Looked(c, s), s)
  {
    FindTurnIs(s.turns, Track(c, s));
  }

  lemma {:induction false} FindTurnIs(turns: seq<Turn>, id: string)
    ensures match FindTurn(turns, id)
            case None => id == "" || id !in Ids(turns)
            case Some(t) => id != "" && t in turns && t.id == id
  {
    if turns != [] {
      FindTurnIs(turns[1..], id);
      assert turns == [turns[0]] + turns[1..];
    }
  }

  /** An answer is never made up: a stream ended with it, or a snapshot showed the tracked turn completed with it. */
  lemma AnswerWasGiven(task: string, run: seq<Label>, l: Label, text: string)
    requires IsRun(Init(task), run + [l]) && After(Init(task), run + [l]).phase == Ended(Answered(text))
    ensures var c := After(Init(task), run);
            l == ReadEnds(Answered(text)) || (l.Look? && Gives(l.snapshot, Track(c, l.snapshot), text))
  {
    assert (run + [l])[..|run|] == run;
    var c := After(Init(task), run);
    if l.Look? { LookGives(c, l.snapshot, text); }
  }

  predicate Gives(s: Snapshot, turn: string, text: string) {
    match FindTurn(s.turns, turn)
    case None => false
    case Some(t) => t.status.Completed? && NativeAnswer(t.items).0 == text && !Blank(text)
  }

  lemma LookGives(c: Client, s: Snapshot, text: string)
    requires c.phase.Trying? && Looked(c, s).phase == Ended(Answered(text))
    ensures Gives(s, Track(c, s), text)
  {
  }

  /** Starts are sent from nowhere else. */
  lemma StartsOnlyHere(c: Client, l: Label)
    requires Enabled(c, l) && Next(c, l).tally.starts != c.tally.starts
    ensures (l.Start? && c.phase.Fresh?) || (l.Restart? && c.phase.Restarting?)
  {
    hide Track, Decide;
  }
}
