/** Starts that arrive after their reply was given up (codex/recovery.go:178-212). Without them two assignments never
run at once, as recovery_daemon.dfy shows; here a lost start may stay in the air and create its turn at any later
time. `flying` counts those, and `unsure` says that there was one when the client last looked. */
module RecoveryLate {
  import opened Wrappers
  import opened Recovery
  import opened RecoveryDaemon

  datatype Air = Air(sys: System, flying: nat, unsure: bool)

  datatype Event =
    | Ground(m: Move)
    | Flies(l: Label)
    | Arrives(t: Turn)

  predicate Lost(l: Label) { (l.Start? || l.Restart?) && l.reply.Lost? }

  predicate CanHappen(a: Air, e: Event) {
    match e
    case Ground(m) => Possible(a.sys, m)
    case Flies(l) => Lost(l) && Possible(a.sys, Act(l, None))
    case Arrives(t) => a.flying > 0 && t.id != "" && t.id !in Ids(a.sys.turns) && t.status.InProgress?
  }

  function Happen(a: Air, e: Event): Air
    requires CanHappen(a, e)
  {
    match e
    case Ground(m) => Air(Step(a.sys, m), a.flying, if m.Act? && m.l.Look? then a.flying > 0 else a.unsure)
    case Flies(l) => Air(Step(a.sys, Act(l, None)), a.flying + 1, a.unsure)
    case Arrives(t) =>
      Air(a.sys.(turns := a.sys.turns + [t], running := a.sys.running + {t.id}), a.flying - 1, a.unsure)
  }

  predicate Inv(a: Air) {
    && DistinctIds(a.sys.turns) && Live(a.sys.turns, a.sys.running)
    && (a.sys.c.phase.Fresh? ==> a.flying == 0)
    && (a.sys.c.phase.Restarting? && !a.unsure ==> a.sys.running == {} && a.flying == 0)
  }

  /** At most one assignment runs or may still begin to. */
  predicate Calm(a: Air) { |a.sys.running| + a.flying <= 1 }

  /** A recovery start that the network does not lose for good. */
  predicate StartsAgain(e: Event) {
    match e
    case Ground(m) => m.Act? && m.l.Restart? && m.reached.Some?
    case Flies(l) => l.Restart?
    case Arrives(_) => false
  }

  /** A recovery start goes out while an earlier start is in the air, or runs after arriving too late to be seen. */
  predicate Crowds(a: Air, e: Event) { StartsAgain(e) && (a.flying > 0 || a.sys.running != {}) }

  lemma LiveAppend(turns: seq<Turn>, running: set<string>, t: Turn)
    requires DistinctIds(turns) && Live(turns, running) && t.id != "" && t.id !in Ids(turns) && t.status.InProgress?
    ensures DistinctIds(turns + [t]) && Live(turns + [t], running + {t.id})
    ensures t.id !in running
  {
    forall u | u in turns ensures u.id in Ids(turns) && u in turns + [t] {}
    assert t in turns + [t];
  }

  /** What the moves of the first model do to the turns and to what runs. */
  lemma MoveRuns(sys: System, m: Move)
    requires DistinctIds(sys.turns) && Live(sys.turns, sys.running) && Possible(sys, m)
    ensures var sys' := Step(sys, m);
            && DistinctIds(sys'.turns) && Live(sys'.turns, sys'.running)
            && if m.Act? && m.reached.Some? then sys'.running == sys.running + {m.reached.value.id}
               else sys'.running <= sys.running
    ensures m.Act? && m.reached.Some? ==> m.reached.value.id !in sys.running
    ensures m.Act? && m.l.Start? ==> sys.running == {}
  {
    hide Live, DistinctIds;
    match m
    case Act(l, reached) =>
      if reached.Some? { LiveAppend(sys.turns, sys.running, reached.value); }
      if l.Start? { RunningIsBusy(sys); }
    case Adds(i, item) => LiveUpdate(sys.turns, sys.running, i, sys.turns[i].(items := sys.turns[i].items + [item]));
    case Ends(i, status) => Ending(sys, i, status);
    case Dies => LiveEmpty(sys.turns);
  }

  lemma LiveEmpty(turns: seq<Turn>)
    ensures Live(turns, {})
  {
  }

  lemma Ending(sys: System, i: nat, status: Status)
    requires DistinctIds(sys.turns) && Live(sys.turns, sys.running) && i < |sys.turns|
    ensures var t := sys.turns[i].(status := status);
            DistinctIds(sys.turns[i := t]) && Live(sys.turns[i := t], sys.running - {t.id})
  {
    var t := sys.turns[i].(status := status);
    LiveUpdate(sys.turns, sys.running - {t.id}, i, t);
  }

  /** A client that is about to start again has just looked, or was, and only an arrival can have changed that. */
  lemma MovePhases(sys: System, m: Move)
    requires Possible(sys, m)
    ensures var sys' := Step(sys, m);
            && (sys'.c.phase.Fresh? ==> sys.c.phase.Fresh? && !(m.Act? && (m.l.Start? || m.l.Restart?)))
            && (sys'.c.phase.Restarting? && m.Act? && m.l.Look? ==> sys'.running == {})
            && (sys'.c.phase.Restarting? && !(m.Act? && m.l.Look?) ==>
                  sys.c.phase.Restarting? && !(m.Act? && (m.l.Start? || m.l.Restart?)))
  {
    if m.Act? {
      if m.l.Look? { LookedClient(sys.c, m.l.snapshot); }
      else if m.l.Start? || m.l.Restart? { StartedClient(sys.c, m.l); }
      else { OtherClient(sys.c, m.l); }
    }
  }

  lemma ReachedStarts(sys: System, m: Move)
    requires Possible(sys, m) && m.Act? && m.reached.Some?
    ensures m.l.Start? || m.l.Restart?
    ensures m.l.Start? ==> sys.c.phase.Fresh?
  {
  }

  lemma EventKeeps(a: Air, e: Event)
    requires Inv(a) && CanHappen(a, e)
    ensures Inv(Happen(a, e))
  {
    hide Possible, Step, Live, DistinctIds;
    match e
    case Ground(m) =>
      MoveRuns(a.sys, m);
      MovePhases(a.sys, m);
      if m.Act? && m.reached.Some? { ReachedStarts(a.sys, m); }
    case Flies(l) =>
      MoveRuns(a.sys, Act(l, None));
      MovePhases(a.sys, Act(l, None));
    case Arrives(t) => LiveAppend(a.sys.turns, a.sys.running, t);
  }

  lemma Joined(running: set<string>, id: string)
    requires id !in running
    ensures |running + {id}| == |running| + 1
  {
  }

  lemma Fewer(running: set<string>, running': set<string>)
    requires running' <= running
    ensures |running'| <= |running|
  {
    assert running == running' + (running - running');
  }

  /** Only a start adds to what runs or may begin to. */
  lemma LoadAfter(a: Air, e: Event)
    requires Inv(a) && CanHappen(a, e)
    ensures var a' := Happen(a, e);
            var load, load' := |a.sys.running| + a.flying, |a'.sys.running| + a'.flying;
            && (Grows(e) ==> load' == load + 1) && (!Grows(e) ==> load' <= load) && (e.Arrives? ==> load' == load)
            && (Grows(e) && !StartsAgain(e) ==> load == 0)
  {
    hide Possible, Step, Live, DistinctIds;
    match e
    case Ground(m) =>
      MoveRuns(a.sys, m);
      if m.Act? && m.reached.Some? {
        ReachedStarts(a.sys, m);
        Joined(a.sys.running, m.reached.value.id);
      } else {
        Fewer(a.sys.running, Step(a.sys, m).running);
      }
    case Flies(l) => FlownLoad(a, l);
    case Arrives(t) =>
      LiveAppend(a.sys.turns, a.sys.running, t);
      Joined(a.sys.running, t.id);
  }

  lemma FlownLoad(a: Air, l: Label)
    requires Inv(a) && CanHappen(a, Flies(l))
    ensures Step(a.sys, Act(l, None)).running == a.sys.running
    ensures l.Start? ==> a.sys.running == {} && a.flying == 0
  {
    hide Live, DistinctIds;
    MoveRuns(a.sys, Act(l, None));
  }

  /** A start that reaches the daemon, now or later. */
  predicate Grows(e: Event) {
    match e
    case Ground(m) => m.Act? && m.reached.Some?
    case Flies(_) => true
    case Arrives(_) => false
  }

  lemma CalmStep(a: Air, e: Event)
    requires Inv(a) && CanHappen(a, e) && Calm(a)
    ensures Calm(Happen(a, e)) <==> !Crowds(a, e)
  {
    hide Inv, CanHappen, Happen;
    LoadAfter(a, e);
  }

  // ---- whole histories ----

  predicate IsFlight(a: Air, run: seq<Event>)
    decreases run
  {
    run == [] || (CanHappen(a, run[0]) && IsFlight(Happen(a, run[0]), run[1..]))
  }

  function Landed(a: Air, run: seq<Event>): Air
    requires IsFlight(a, run)
    decreases run
  {
    if run == [] then a else Landed(Happen(a, run[0]), run[1..])
  }

  // ---- what the network alone can do ----

  predicate OnlyArrivals(run: seq<Event>) { forall e | e in run :: e.Arrives? }

  /** Two assignments run, or will if what is in the air arrives now. */
  ghost predicate Doubles(a: Air) {
    exists run :: OnlyArrivals(run) && IsFlight(a, run) && !AtMostOne(Landed(a, run).sys.running)
  }

  lemma {:induction false} Longest(ids: set<string>) returns (n: nat)
    ensures forall id | id in ids :: |id| <= n
    decreases |ids|
  {
    n := 0;
    if id :| id in ids {
      n := Longest(ids - {id});
      if n < |id| { n := |id|; }
    }
  }

  lemma NewTurn(turns: seq<Turn>) returns (t: Turn)
    ensures t.id != "" && t.id !in Ids(turns) && t.status.InProgress?
  {
    var n := Longest(Ids(turns));
    t := Turn(seq(n + 1, _ => 'x'), InProgress, []);
  }

  lemma SizeIsOne(running: set<string>)
    ensures AtMostOne(running) <==> |running| <= 1
  {
    if a :| a in running {
      assert running == {a} + (running - {a});
      if b :| b in running - {a} { assert running - {a} == {b} + (running - {a} - {b}); }
    }
  }

  lemma ArrivesNow(a: Air) returns (e: Event)
    requires Inv(a) && a.flying > 0
    ensures e.Arrives? && CanHappen(a, e) && Inv(Happen(a, e))
    ensures |Happen(a, e).sys.running| == |a.sys.running| + 1 && Happen(a, e).flying == a.flying - 1
  {
    hide Inv;
    var t := NewTurn(a.sys.turns);
    e := Arrives(t);
    EventKeeps(a, e);
    LoadAfter(a, e);
  }

  /** Everything in the air arrives. */
  lemma {:induction false} AllArrive(a: Air) returns (run: seq<Event>)
    requires Inv(a)
    ensures OnlyArrivals(run) && IsFlight(a, run) && |Landed(a, run).sys.running| == |a.sys.running| + a.flying
    decreases a.flying
  {
    hide Inv, CanHappen, Happen;
    run := [];
    if a.flying > 0 {
      var e := ArrivesNow(a);
      var rest := AllArrive(Happen(a, e));
      run := [e] + rest;
      assert run[1..] == rest;
    }
  }

  lemma {:induction false} ArrivalsKeepLoad(a: Air, run: seq<Event>)
    requires Inv(a) && OnlyArrivals(run) && IsFlight(a, run)
    ensures |Landed(a, run).sys.running| <= |a.sys.running| + a.flying
    decreases run
  {
    hide Inv, CanHappen, Happen;
    if run != [] {
      LoadAfter(a, run[0]);
      EventKeeps(a, run[0]);
      ArrivalsKeepLoad(Happen(a, run[0]), run[1..]);
    }
  }

  lemma DoublesExactly(a: Air)
    requires Inv(a)
    ensures Doubles(a) <==> !Calm(a)
  {
    hide Inv, IsFlight, Landed;
    if Doubles(a) {
      var run :| OnlyArrivals(run) && IsFlight(a, run) && !AtMostOne(Landed(a, run).sys.running);
      ArrivalsKeepLoad(a, run);
      SizeIsOne(Landed(a, run).sys.running);
    }
    if !Calm(a) {
      var run := AllArrive(a);
      SizeIsOne(Landed(a, run).sys.running);
    }
  }

  // ---- exactly when ----

  /** From where at most one assignment runs or may still begin to, an event lets the network make it two exactly when
  it is a recovery start and an earlier start is in the air or runs. */
  lemma TwoAfterExactly(a: Air, e: Event)
    requires Inv(a) && CanHappen(a, e) && !Doubles(a)
    ensures Doubles(Happen(a, e)) <==> Crowds(a, e)
  {
    hide Inv, CanHappen, Happen, Doubles, Crowds;
    EventKeeps(a, e);
    DoublesExactly(a);
    DoublesExactly(Happen(a, e));
    CalmStep(a, e);
  }

  ghost predicate EverDoubles(a: Air, run: seq<Event>)
    requires IsFlight(a, run)
    decreases run
  {
    Doubles(a) || (run != [] && EverDoubles(Happen(a, run[0]), run[1..]))
  }

  predicate EverCrowds(a: Air, run: seq<Event>)
    requires IsFlight(a, run)
    decreases run
  {
    run != [] && (Crowds(a, run[0]) || EverCrowds(Happen(a, run[0]), run[1..]))
  }

  predicate EverTwo(a: Air, run: seq<Event>)
    requires IsFlight(a, run)
    decreases run
  {
    !AtMostOne(a.sys.running) || (run != [] && EverTwo(Happen(a, run[0]), run[1..]))
  }

  /** Over any history, the network alone can at some time make two assignments run if and only if a recovery start went
  out while an earlier start was in the air or ran. */
  lemma {:induction false} TwoRunExactly(a: Air, run: seq<Event>)
    requires Inv(a) && !Doubles(a) && IsFlight(a, run)
    ensures EverDoubles(a, run) <==> EverCrowds(a, run)
    decreases run
  {
    hide Inv, CanHappen, Happen, Crowds, Doubles;
    if run != [] {
      EventKeeps(a, run[0]);
      TwoAfterExactly(a, run[0]);
      if !Crowds(a, run[0]) { TwoRunExactly(Happen(a, run[0]), run[1..]); }
      else { DoublesNow(Happen(a, run[0]), run[1..]); }
    }
  }

  lemma DoublesNow(a: Air, run: seq<Event>)
    requires IsFlight(a, run) && Doubles(a)
    ensures EverDoubles(a, run)
  {
    hide Doubles;
  }

  /** Every call begins so, whatever an earlier one left running on the thread. */
  lemma OpeningIsCalm(sys: System)
    requires Opening(sys)
    ensures Inv(Air(sys, 0, false)) && Calm(Air(sys, 0, false)) && !Doubles(Air(sys, 0, false))
  {
    hide Doubles;
    SizeIsOne(sys.running);
    DoublesExactly(Air(sys, 0, false));
  }

  // ---- what the client's look decides ----

  /** A recovery start is sent on a look that was made while a lost start was in the air. */
  predicate EverUnsure(a: Air, run: seq<Event>)
    requires IsFlight(a, run)
    decreases run
  {
    run != [] && ((StartsAgain(run[0]) && a.unsure) || EverUnsure(Happen(a, run[0]), run[1..]))
  }

  lemma CrowdsIsUnsure(a: Air, e: Event)
    requires Inv(a) && CanHappen(a, e) && Crowds(a, e)
    ensures a.unsure
  {
  }

  /** Two never run unless the client starts again on a look that was made while a lost start was in the air. */
  lemma {:induction false} NeverTwoIfSure(a: Air, run: seq<Event>)
    requires Inv(a) && Calm(a) && IsFlight(a, run) && !EverUnsure(a, run)
    ensures !EverTwo(a, run)
    decreases run
  {
    hide Inv, CanHappen, Happen, Crowds, AtMostOne, StartsAgain;
    SizeIsOne(a.sys.running);
    if run != [] {
      EventKeeps(a, run[0]);
      CalmStep(a, run[0]);
      if Crowds(a, run[0]) { CrowdsIsUnsure(a, run[0]); CrowdsStarts(a, run[0]); }
      NeverTwoIfSure(Happen(a, run[0]), run[1..]);
    }
  }

  lemma CrowdsStarts(a: Air, e: Event)
    requires Crowds(a, e)
    ensures StartsAgain(e)
  {
  }

  function Starts(run: seq<Event>): nat {
    if run == [] then 0 else Starts(run[1..]) + (if Grows(run[0]) then 1 else 0)
  }

  lemma {:induction false} LoadIsCapped(a: Air, run: seq<Event>)
    requires Inv(a) && IsFlight(a, run) && |a.sys.running| + a.flying + Starts(run) <= 1
    ensures !EverTwo(a, run)
    decreases run
  {
    hide Inv, CanHappen, Happen, AtMostOne, Grows;
    SizeIsOne(a.sys.running);
    if run != [] {
      EventKeeps(a, run[0]);
      LoadAfter(a, run[0]);
      LoadIsCapped(Happen(a, run[0]), run[1..]);
    }
  }

  ghost predicate TwoWithin(a: Air, starts: nat) {
    exists run :: IsFlight(a, run) && Starts(run) <= starts && EverTwo(a, run)
  }

  /** Once a look has made the client start again, that one start can make two run if and only if a lost start was in the
  air at the look. */
  lemma RestartRisk(a: Air, s: Snapshot)
    requires Inv(a) && CanHappen(a, Ground(Act(Look(s), None)))
    requires Looked(a.sys.c, s).phase.Restarting?
    ensures TwoWithin(Happen(a, Ground(Act(Look(s), None))), 1) <==> a.flying > 0
  {
    hide Inv, IsFlight, EverTwo, Starts;
    var b := Happen(a, Ground(Act(Look(s), None)));
    EventKeeps(a, Ground(Act(Look(s), None)));
    LookedClient(a.sys.c, s);
    if a.flying > 0 {
      StartsAndArrives(b);
    } else {
      forall run | IsFlight(b, run) && Starts(run) <= 1 ensures !EverTwo(b, run) { LoadIsCapped(b, run); }
    }
  }

  lemma StartsAndArrives(b: Air)
    requires Inv(b) && b.sys.c.phase.Restarting? && b.flying > 0
    ensures TwoWithin(b, 1)
  {
    hide Inv, Live, DistinctIds;
    var t := NewTurn(b.sys.turns);
    var e := Ground(Act(Restart(Acknowledged(t.id)), Some(t)));
    EventKeeps(b, e);
    LoadAfter(b, e);
    var c := Happen(b, e);
    var f := ArrivesNow(c);
    SizeIsOne(Happen(c, f).sys.running);
    TwoEvents(b, e, f);
  }

  lemma TwoEvents(a: Air, e: Event, f: Event)
    requires CanHappen(a, e) && CanHappen(Happen(a, e), f) && f.Arrives?
    requires !AtMostOne(Happen(Happen(a, e), f).sys.running)
    ensures TwoWithin(a, 1)
  {
    hide CanHappen, Happen, AtMostOne;
    var run := [e, f];
    assert run[1..] == [f] && [f][1..] == [];
    var b := Happen(a, e);
    assert EverTwo(Happen(b, f), []);
    assert EverTwo(b, [f]) && IsFlight(b, [f]);
    assert Starts([f]) == 0;
    assert IsFlight(a, run) && Starts(run) <= 1 && EverTwo(a, run);
  }

  // ---- a history in which two do run ----

  lemma {:induction false} Lift(a: Air, run: seq<Move>) returns (flight: seq<Event>)
    requires IsHistory(a.sys, run)
    ensures IsFlight(a, flight)
    ensures Landed(a, flight).sys == Outcome(a.sys, run) && Landed(a, flight).flying == a.flying
    decreases run
  {
    flight := [];
    if run != [] {
      var rest := Lift(Happen(a, Ground(run[0])), run[1..]);
      flight := [Ground(run[0])] + rest;
      assert flight[1..] == rest;
    }
  }

  lemma {:induction false} FlightNext(a: Air, run: seq<Event>, e: Event)
    requires IsFlight(a, run) && CanHappen(Landed(a, run), e)
    ensures IsFlight(a, run + [e]) && Landed(a, run + [e]) == Happen(Landed(a, run), e)
    decreases run
  {
    if run == [] {
      assert run + [e] == [e] && [e][1..] == [];
    } else {
      assert (run + [e])[1..] == run[1..] + [e];
      FlightNext(Happen(a, run[0]), run[1..], e);
    }
  }

  const FIRST := Turn("t1", InProgress, [])
  const SECOND := Turn("t2", InProgress, [])
  const EMPTY := Snapshot(Idle, [])

  function Given(task: string): System { System(Recover(Sent(Init(task), {}, task)), [], {}, None) }

  lemma Resuming(task: string) returns (run: seq<Move>)
    ensures IsHistory(Given(task), run)
    ensures var v := Given(task); Paused(v.c).paused && Steered(Paused(v.c), RESUME).resume
    ensures Outcome(Given(task), run) == Given(task).(c := Resumed(Given(task).c))
  {
    var v := Given(task);
    assert IsHistory(v, []) && Outcome(v, []) == v;
    ReachResumed(v, v);
    run :| IsHistory(v, run) && Outcome(v, run) == v.(c := Resumed(v.c));
  }

  /** The first start is given up, the operator resumes, the snapshot is still empty, so the work is started again;
  then the first start arrives after all. */
  lemma TwoMayRun(task: string)
    ensures exists run :: IsFlight(Air(Open(task), 0, false), run)
                          && Landed(Air(Open(task), 0, false), run).sys.running == {"t1", "t2"}
  {
    hide IsFlight, Landed, IsHistory, Outcome;
    var a0 := Air(Open(task), 0, false);
    var l := Start(EMPTY, Reply.Lost);
    var a1 := Happen(a0, Flies(l));
    assert a1 == Air(Given(task), 1, false);
    var moves := Resuming(task);
    var c := Resumed(Given(task).c);
    var up := Lift(a1, moves);
    Again(c);
    var a2 := Air(Given(task).(c := c), 1, false);
    var seen := Happen(a2, Ground(Act(Look(EMPTY), None)));
    var again := Happen(seen, Ground(Act(Restart(Acknowledged("t2")), Some(SECOND))));
    var both := Happen(again, Arrives(FIRST));
    assert both.sys.running == {"t1", "t2"};
    FlightFirst(a0, Flies(l), up);
    var r1 := [Flies(l)] + up;
    FlightNext(a0, r1, Ground(Act(Look(EMPTY), None)));
    var r2 := r1 + [Ground(Act(Look(EMPTY), None))];
    FlightNext(a0, r2, Ground(Act(Restart(Acknowledged("t2")), Some(SECOND))));
    var r3 := r2 + [Ground(Act(Restart(Acknowledged("t2")), Some(SECOND)))];
    FlightNext(a0, r3, Arrives(FIRST));
  }

  lemma Again(c: Client)
    requires c.phase.Trying? && c.confirmed && c.turn == ""
    ensures Looked(c, EMPTY).phase.Restarting?
  {
    FindTurnIs([], "");
    AgainOf(c, EMPTY, "");
    RestartingIsAgain(c, EMPTY);
  }

  lemma FlightFirst(a: Air, e: Event, run: seq<Event>)
    requires CanHappen(a, e) && IsFlight(Happen(a, e), run)
    ensures IsFlight(a, [e] + run) && Landed(a, [e] + run) == Landed(Happen(a, e), run)
  {
    assert ([e] + run)[1..] == run;
  }
}
