/** Recovery against a daemon that tells the truth and a thread with a single owner: its snapshots list the turns
it has, it never calls a thread idle while a turn of it runs, and a start whose reply was lost either reached it
or never will; recovery_late.dfy drops the last of these. */
module RecoveryDaemon {
  import opened Wrappers
  import opened Recovery

  /** `last` is the turn that the latest start created, if the request reached the daemon. */
  datatype System = System(c: Client, turns: seq<Turn>, running: set<string>, last: Option<string>)

  datatype Move =
    | Act(l: Label, reached: Option<Turn>)
    | Adds(i: nat, item: Item)
    | Ends(i: nat, status: Status)
    | Dies

  predicate Honest(sys: System, s: Snapshot) { s.turns == sys.turns && (s.status.Idle? ==> sys.running == {}) }

  predicate Created(sys: System, reply: Reply, reached: Option<Turn>) {
    match reached
    case None => !reply.Acknowledged?
    case Some(t) => t.id != "" && t.id !in Ids(sys.turns) && t.status.InProgress? && !reply.Refused? &&
                    (reply.Acknowledged? ==> reply.id == t.id)
  }

  predicate Possible(sys: System, m: Move) {
    match m
    case Act(l, reached) =>
      && Enabled(sys.c, l)
      && (match l
          case Start(before, reply) => Honest(sys, before) && Created(sys, reply, reached)
          case Restart(reply) => Created(sys, reply, reached)
          case Look(s) => Honest(sys, s) && reached.None?
          case _ => reached.None?)
    case Adds(i, _) => i < |sys.turns| && sys.turns[i].id in sys.running
    case Ends(i, status) => i < |sys.turns| && sys.turns[i].id in sys.running && !status.InProgress?
    case Dies => true
  }

  function Step(sys: System, m: Move): System
    requires Possible(sys, m)
  {
    match m
    case Act(l, reached) =>
      var c := Next(sys.c, l);
      if l.Start? || l.Restart? then
        if reached.Some? then System(c, sys.turns + [reached.value], sys.running + {reached.value.id}, Some(reached.value.id))
        else System(c, sys.turns, sys.running, None)
      else sys.(c := c)
    case Adds(i, item) => sys.(turns := sys.turns[i := sys.turns[i].(items := sys.turns[i].items + [item])])
    case Ends(i, status) =>
      sys.(turns := sys.turns[i := sys.turns[i].(status := status)], running := sys.running - {sys.turns[i].id})
    case Dies => sys.(running := {})
  }

  // ---- the invariant ----

  predicate DistinctIds(turns: seq<Turn>) {
    (forall i, j | 0 <= i < j < |turns| :: turns[i].id != turns[j].id) && (forall i | 0 <= i < |turns| :: turns[i].id != "")
  }

  predicate Live(turns: seq<Turn>, running: set<string>) {
    forall id | id in running :: exists t :: t in turns && t.id == id && t.status.InProgress?
  }

  predicate AtMostOne(running: set<string>) { forall a, b | a in running && b in running :: a == b }

  predicate Runs(turns: seq<Turn>, running: set<string>) { Live(turns, running) && AtMostOne(running) }

  predicate OneNew(sys: System) {
    && Ids(sys.turns) == sys.c.known + (if sys.last.Some? then {sys.last.value} else {})
    && (sys.last.Some? ==> sys.last.value !in sys.c.known)
  }

  predicate Inv(sys: System) {
    && DistinctIds(sys.turns) && Runs(sys.turns, sys.running)
    && (sys.c.tally.starts > 0 ==> OneNew(sys))
    && (sys.c.tally.starts == 0 ==> sys.c.phase.Fresh? || sys.c.phase.Ended?)
    && (sys.c.turn != "" ==> sys.c.tally.starts > 0 && sys.last == Some(sys.c.turn))
    && (sys.c.phase.Restarting? ==> sys.running == {} && Ids(sys.c.phase.seen.turns) == Ids(sys.turns))
  }

  /** A thread before the call: whatever earlier work left, with at most one turn still running. */
  ghost predicate Opening(sys: System) {
    DistinctIds(sys.turns) && Runs(sys.turns, sys.running) && sys.last.None? && exists task :: sys.c == Init(task)
  }

  // ---- candidates ----

  lemma {:induction false} NothingNew(known: set<string>, turns: seq<Turn>, prompt: string)
    requires Ids(turns) <= known
    ensures NewTurns(known, turns, prompt) == []
  {
    if turns != [] {
      var init, last := turns[..|turns| - 1], turns[|turns| - 1];
      assert last in turns && last.id in Ids(turns);
      assert Ids(init) <= known by {
        forall t | t in init ensures t.id in known { assert t in turns && t.id in Ids(turns); }
      }
      NothingNew(known, init, prompt);
    }
  }

  /** With one new turn the candidates are copies of it, one for each user message that is the prompt. */
  lemma {:induction false} OneCandidate(known: set<string>, turns: seq<Turn>, prompt: string, i: nat)
    requires i < |turns| && turns[i].id !in known
    requires forall k | 0 <= k < |turns| && k != i :: turns[k].id in known
    ensures NewTurns(known, turns, prompt) == Copies(turns[i], Matches(turns[i].items, prompt))
  {
    var init, last := turns[..|turns| - 1], turns[|turns| - 1];
    if i == |turns| - 1 {
      forall t | t in init ensures t.id in known {
        var k :| 0 <= k < |init| && init[k] == t;
        assert turns[k] == t;
      }
      NothingNew(known, init, prompt);
    } else {
      OneCandidate(known, init, prompt, i);
    }
  }

  lemma {:induction false} CopiesAre(turn: Turn, n: nat)
    ensures |Copies(turn, n)| == n && forall k | 0 <= k < n :: Copies(turn, n)[k] == turn
  {
    if n > 0 { CopiesAre(turn, n - 1); }
  }

  lemma {:induction false} Found(turns: seq<Turn>, i: nat)
    requires DistinctIds(turns) && i < |turns|
    ensures FindTurn(turns, turns[i].id) == Some(turns[i])
  {
    if i > 0 {
      assert turns[0].id != turns[i].id;
      Found(turns[1..], i - 1);
    }
  }

  predicate LastIs(sys: System, t: Turn) { t in sys.turns && sys.last == Some(t.id) }

  /** Which turn the client tracks after an honest look: the one its last start created, exactly when it knew the
  id already or that turn holds the prompt in one user message. */
  lemma TrackExactly(sys: System, s: Snapshot)
    requires Inv(sys) && sys.c.tally.starts > 0 && Honest(sys, s)
    ensures sys.last.None? ==> Track(sys.c, s) == ""
    ensures forall t | LastIs(sys, t) ::
              Track(sys.c, s) == if sys.c.turn != "" || Matches(t.items, sys.c.prompt) == 1 then t.id else ""
  {
    if sys.last.None? { NothingNew(sys.c.known, sys.turns, sys.c.prompt); }
    forall t | LastIs(sys, t)
      ensures Track(sys.c, s) == if sys.c.turn != "" || Matches(t.items, sys.c.prompt) == 1 then t.id else ""
    {
      var i :| 0 <= i < |sys.turns| && sys.turns[i] == t;
      forall k | 0 <= k < |sys.turns| && k != i ensures sys.turns[k].id in sys.c.known {
        assert sys.turns[k] in sys.turns && sys.turns[k].id in Ids(sys.turns);
      }
      OneCandidate(sys.c.known, sys.turns, sys.c.prompt, i);
      CopiesAre(t, Matches(t.items, sys.c.prompt));
    }
  }

  // ---- every step keeps the invariant ----

  lemma IdsAppend(turns: seq<Turn>, t: Turn)
    ensures Ids(turns + [t]) == Ids(turns) + {t.id}
  {
    assert t in turns + [t];
  }

  lemma IdsUpdate(turns: seq<Turn>, i: nat, t: Turn)
    requires i < |turns| && t.id == turns[i].id
    ensures Ids(turns[i := t]) == Ids(turns)
  {
    assert turns[i] in turns && turns[i := t][i] == t;
    forall u | u in turns ensures u.id in Ids(turns[i := t]) {
      var k :| 0 <= k < |turns| && turns[k] == u;
      assert turns[i := t][k] in turns[i := t] && turns[i := t][k].id == u.id;
    }
    forall u | u in turns[i := t] ensures u.id in Ids(turns) {
      var k :| 0 <= k < |turns| && turns[i := t][k] == u;
      assert turns[k] in turns && turns[k].id == u.id;
    }
  }

  lemma LiveUpdate(turns: seq<Turn>, running: set<string>, i: nat, t: Turn)
    requires DistinctIds(turns) && Live(turns, running) && i < |turns| && t.id == turns[i].id
    requires t.status == turns[i].status || t.id !in running
    ensures DistinctIds(turns[i := t]) && Live(turns[i := t], running)
  {
    var turns' := turns[i := t];
    forall id | id in running ensures exists u :: u in turns' && u.id == id && u.status.InProgress? {
      var u :| u in turns && u.id == id && u.status.InProgress?;
      var k :| 0 <= k < |turns| && turns[k] == u;
      assert turns'[k] in turns' && turns'[k].id == id && turns'[k].status.InProgress?;
    }
  }

  lemma RunningIsBusy(sys: System)
    requires Live(sys.turns, sys.running)
    ensures sys.running != {} ==> Busy(sys.turns)
  {
    if id :| id in sys.running {
      var t :| t in sys.turns && t.id == id && t.status.InProgress?;
    }
  }

  lemma StartKeeps(sys: System, l: Label, reached: Option<Turn>)
    requires Inv(sys) && Possible(sys, Act(l, reached)) && (l.Start? || l.Restart?)
    ensures Inv(Step(sys, Act(l, reached)))
  {
    var sys' := Step(sys, Act(l, reached));
    if l.Start? { RunningIsBusy(sys); }
    if reached.Some? {
      IdsAppend(sys.turns, reached.value);
      forall t | t in sys.turns ensures t.id in Ids(sys.turns) {}
      assert reached.value in sys'.turns;
    }
    StartedClient(sys.c, l);
  }

  lemma StartedClient(c: Client, l: Label)
    requires Enabled(c, l) && (l.Start? || l.Restart?)
    ensures var c' := Next(c, l);
            && c'.tally.starts > 0 && !c'.phase.Restarting?
            && c'.known == (if l.Start? then Ids(l.before.turns) else Ids(c.phase.seen.turns))
            && c'.turn == (var reply := l.reply; if reply.Acknowledged? then reply.id else "")
  {
  }

  lemma LookKeepsInv(sys: System, s: Snapshot)
    requires Inv(sys) && Possible(sys, Act(Look(s), None))
    ensures Inv(Step(sys, Act(Look(s), None)))
  {
    if sys.last.Some? {
      assert sys.last.value in Ids(sys.turns);
      var t :| t in sys.turns && t.id == sys.last.value;
      assert LastIs(sys, t);
    }
    TrackExactly(sys, s);
    LookedClient(sys.c, s);
  }

  lemma LookedClient(c: Client, s: Snapshot)
    requires c.phase.Trying?
    ensures var c' := Looked(c, s);
            && c'.known == c.known && c'.tally.starts == c.tally.starts && c'.turn == Track(c, s) && !c'.phase.Fresh?
            && (c'.phase.Restarting? ==> c'.phase.seen == s && s.status.Idle?)
  {
    hide Track, Decide;
    AgainOf(c, s, Track(c, s));
  }

  lemma OtherClient(c: Client, l: Label)
    requires Enabled(c, l) && !l.Start? && !l.Restart? && !l.Look?
    ensures var c' := Next(c, l);
            && c'.known == c.known && c'.tally.starts == c.tally.starts && c'.turn == c.turn
            && (c'.phase.Restarting? ==> c'.phase == c.phase)
            && (c'.phase.Fresh? || c'.phase.Ended? || (!c.phase.Fresh? && !c.phase.Ended?))
  {
  }

  lemma DaemonKeeps(sys: System, m: Move)
    requires Inv(sys) && Possible(sys, m) && !m.Act?
    ensures Inv(Step(sys, m))
  {
    match m
    case Adds(i, item) =>
      var t := sys.turns[i].(items := sys.turns[i].items + [item]);
      IdsUpdate(sys.turns, i, t);
      LiveUpdate(sys.turns, sys.running, i, t);
    case Ends(i, status) =>
      var t := sys.turns[i].(status := status);
      IdsUpdate(sys.turns, i, t);
      LiveUpdate(sys.turns, sys.running - {t.id}, i, t);
    case Dies =>
  }

  lemma StepKeepsInv(sys: System, m: Move)
    requires Inv(sys) && Possible(sys, m)
    ensures Inv(Step(sys, m))
  {
    if !m.Act? {
      DaemonKeeps(sys, m);
    } else if m.l.Start? || m.l.Restart? {
      StartKeeps(sys, m.l, m.reached);
    } else if m.l.Look? {
      LookKeepsInv(sys, m.l.snapshot);
    } else {
      OtherClient(sys.c, m.l);
    }
  }

  predicate IsHistory(sys: System, run: seq<Move>)
    decreases run
  {
    run == [] || (Possible(sys, run[0]) && IsHistory(Step(sys, run[0]), run[1..]))
  }

  function Outcome(sys: System, run: seq<Move>): System
    requires IsHistory(sys, run)
    decreases run
  {
    if run == [] then sys else Outcome(Step(sys, run[0]), run[1..])
  }

  lemma {:induction false} HistoryKeeps(sys: System, run: seq<Move>)
    requires Inv(sys) && IsHistory(sys, run)
    ensures Inv(Outcome(sys, run))
    decreases run
  {
    if run != [] {
      StepKeepsInv(sys, run[0]);
      HistoryKeeps(Step(sys, run[0]), run[1..]);
    }
  }

  // ---- the promises ----

  /** Two assignments never run at once. */
  lemma NeverTwoRunning(sys: System, run: seq<Move>)
    requires Opening(sys) && IsHistory(sys, run)
    ensures AtMostOne(Outcome(sys, run).running)
  {
    HistoryKeeps(sys, run);
  }

  /** The client never takes another turn for its own. */
  lemma TracksItsOwn(sys: System, run: seq<Move>)
    requires Opening(sys) && IsHistory(sys, run) && Outcome(sys, run).c.turn != ""
    ensures Outcome(sys, run).last == Some(Outcome(sys, run).c.turn)
  {
    HistoryKeeps(sys, run);
  }

  predicate MayRepeat(c: Client, t: Turn) {
    (c.turn == "" && Matches(t.items, c.prompt) != 1) || t.status !in {Completed, Failed}
  }

  /** When an honest look makes the client send another start: it was confirmed, the thread is idle, and either the
  last start never reached the daemon, or its turn could not be told from the prompt, or that turn neither
  completed nor failed. */
  lemma RestartExactly(sys: System, run: seq<Move>, s: Snapshot)
    requires Opening(sys) && IsHistory(sys, run)
    requires Possible(Outcome(sys, run), Act(Look(s), None))
    ensures var w := Outcome(sys, run);
            Looked(w.c, s).phase.Restarting? <==>
              && w.c.confirmed && s.status.Idle?
              && (w.last.None? || exists t :: LastIs(w, t) && MayRepeat(w.c, t))
  {
    HistoryKeeps(sys, run);
    var w := Outcome(sys, run);
    TrackExactly(w, s);
    RestartingIsAgain(w.c, s);
    FindTurnIs(s.turns, "");
    if w.last.Some? { RestartOfLast(w, s); }
  }

  lemma RestartOfLast(w: System, s: Snapshot)
    requires Inv(w) && w.c.phase.Trying? && Honest(w, s) && w.last.Some?
    ensures Decide(w.c, s, Track(w.c, s)).Again? <==>
              w.c.confirmed && s.status.Idle? && exists t :: LastIs(w, t) && MayRepeat(w.c, t)
  {
    TrackExactly(w, s);
    assert w.last.value in Ids(w.turns);
    var t :| t in w.turns && t.id == w.last.value;
    assert LastIs(w, t);
    OnlyLast(w, t);
    var i :| 0 <= i < |w.turns| && w.turns[i] == t;
    Found(w.turns, i);
    FindTurnIs(s.turns, "");
    AgainOf(w.c, s, Track(w.c, s));
  }

  lemma OnlyLast(sys: System, t: Turn)
    requires DistinctIds(sys.turns) && LastIs(sys, t)
    ensures forall u | LastIs(sys, u) :: u == t
  {
    var i :| 0 <= i < |sys.turns| && sys.turns[i] == t;
    forall u | LastIs(sys, u) ensures u == t {
      var k :| 0 <= k < |sys.turns| && sys.turns[k] == u;
      assert k == i;
    }
  }

  lemma RestartingIsAgain(c: Client, s: Snapshot)
    requires c.phase.Trying?
    ensures Looked(c, s).phase.Restarting? <==> Decide(c, s, Track(c, s)).Again?
  {
    hide Track, Decide;
  }

  // ---- completed work can be submitted again after all ----

  function Open(task: string): System { System(Init(task), [], {}, None) }

  ghost predicate Reaches(from: System, w: System) { exists run :: IsHistory(from, run) && Outcome(from, run) == w }

  lemma {:induction false} Extend(sys: System, run: seq<Move>, m: Move)
    requires IsHistory(sys, run) && Possible(Outcome(sys, run), m)
    ensures IsHistory(sys, run + [m]) && Outcome(sys, run + [m]) == Step(Outcome(sys, run), m)
    decreases run
  {
    if run == [] {
      assert run + [m] == [m] && [m][1..] == [];
    } else {
      assert (run + [m])[1..] == run[1..] + [m];
      Extend(Step(sys, run[0]), run[1..], m);
    }
  }

  lemma ReachStep(from: System, v: System, m: Move, w: System)
    requires Reaches(from, v) && Possible(v, m) && Step(v, m) == w
    ensures Reaches(from, w)
  {
    hide Possible, Step;
    var run :| IsHistory(from, run) && Outcome(from, run) == v;
    Extend(from, run, m);
  }

  /** The start reaches the daemon, its reply is lost, and the turn completes with these items. */
  function Done(items: seq<Item>): Turn { Turn("t1", Completed, items) }

  function Over(task: string, items: seq<Item>): System {
    System(Recover(Sent(Init(task), {}, task)), [Done(items)], {}, Some("t1"))
  }

  lemma ReachOver(task: string, items: seq<Item>)
    ensures Reaches(Open(task), Over(task, items))
  {
    var begun := Turn("t1", InProgress, items);
    var sent := Over(task, items).(turns := [begun], running := {"t1"});
    assert IsHistory(Open(task), []) && Outcome(Open(task), []) == Open(task);
    assert [] + [begun] == [begun] && Ids([]) == {};
    ReachStep(Open(task), Open(task), Act(Start(Snapshot(Idle, []), Lost), Some(begun)), sent);
    assert [begun][0 := Done(items)] == [Done(items)] && {"t1"} - {"t1"} == {};
    ReachStep(Open(task), sent, Ends(0, Completed), Over(task, items));
  }

  /** A client that waits in the pause after three lost attempts, and the same after the operator's resume. */
  function Paused(c: Client): Client { Pause(Counted(NextTry(Counted(NextTry(Counted(c), 1)), 2))) }

  function Resumed(c: Client): Client { Next(Steered(Paused(c), RESUME), Take) }

  lemma ReachPaused(from: System, v: System)
    requires Reaches(from, v) && v.c.phase == Trying(1)
    ensures Reaches(from, v.(c := Paused(v.c)))
  {
    hide Reaches;
    var lost := Act(AttemptLost, None);
    var c1 := NextTry(Counted(v.c), 1);
    var c2 := NextTry(Counted(c1), 2);
    ReachStep(from, v, lost, v.(c := c1));
    ReachStep(from, v.(c := c1), lost, v.(c := c2));
    ReachStep(from, v.(c := c2), lost, v.(c := Paused(v.c)));
  }

  lemma ResumeSteers(c: Client)
    requires c.paused && !c.resume
    ensures Steered(c, RESUME).resume
  {
    assert Trim(RESUME) == RESUME;
  }

  lemma ReachResumed(from: System, v: System)
    requires Reaches(from, v) && v.c.phase == Trying(1) && !v.c.resume
    ensures Paused(v.c).paused && Steered(Paused(v.c), RESUME).resume
    ensures Reaches(from, v.(c := Resumed(v.c)))
  {
    hide Reaches;
    ReachPaused(from, v);
    var c3 := Paused(v.c);
    ResumeSteers(c3);
    var c4 := Steered(c3, RESUME);
    ReachStep(from, v.(c := c3), Act(Label.Steer(RESUME), None), v.(c := c4));
    ReachStep(from, v.(c := c4), Act(Take, None), v.(c := Resumed(v.c)));
  }

  /** A look at a completed turn of the client's own after which it asks for the work again. */
  predicate Repeating(w: System, s: Snapshot, t: Turn) {
    && Possible(w, Act(Look(s), None)) && Looked(w.c, s).phase.Restarting?
    && LastIs(w, t) && t.status.Completed?
  }

  ghost predicate Repeats(task: string, items: seq<Item>) {
    exists run, s, t :: IsHistory(Open(task), run) && Repeating(Outcome(Open(task), run), s, t)
                        && Outcome(Open(task), run).c.prompt == task && t.items == items
  }

  /** When the reply to a start is lost the client has to find its turn by the prompt. A turn that completed with these
  items can be asked for again if and only if the prompt is not exactly one user message of it: if the daemon reports
  the prompt in another form, or if the turn has a second message with the same text. */
  lemma CompletedWorkIsRepeated(task: string, items: seq<Item>)
    ensures Repeats(task, items) <==> Matches(items, task) != 1
  {
    hide Repeats, Matches;
    if Matches(items, task) != 1 { Unrecognised(task, items); }
    if Repeats(task, items) { RepeatedUnrecognised(task, items); }
  }

  lemma RepeatedUnrecognised(task: string, items: seq<Item>)
    requires Repeats(task, items)
    ensures Matches(items, task) != 1
  {
    var run, s, t :| IsHistory(Open(task), run) && Repeating(Outcome(Open(task), run), s, t)
                     && Outcome(Open(task), run).c.prompt == task && t.items == items;
    var w := Outcome(Open(task), run);
    assert Opening(Open(task));
    HistoryKeeps(Open(task), run);
    RestartExactly(Open(task), run, s);
    OnlyLast(w, t);
  }

  lemma Unrecognised(task: string, items: seq<Item>)
    requires Matches(items, task) != 1
    ensures Repeats(task, items)
  {
    hide Matches, NewTurns, Copies, NativeAnswer;
    var w := Over(task, items).(c := Resumed(Over(task, items).c));
    ReachOver(task, items);
    ReachResumed(Open(task), Over(task, items));
    var run :| IsHistory(Open(task), run) && Outcome(Open(task), run) == w;
    var s, t := Snapshot(Idle, [Done(items)]), Done(items);
    assert [Done(items)][0] == t && LastIs(w, t);
    OneCandidate({}, [t], task, 0);
    CopiesAre(t, Matches(items, task));
    FindTurnIs(s.turns, "");
    AgainOf(w.c, s, "");
    RestartingIsAgain(w.c, s);
    assert Repeating(w, s, t);
  }
}
