/** When a steer that was reported as landed is lost (opencode/adapter.go:142-200, 230-267, 324-335, 441-474): once no
loop can come to it, because its turn was detached or RunTurn was interrupted while the request still waited. */
module SteerLost {
  import opened Wrappers
  import opened SteerQueue

  predicate Waits(s: State, r: nat) {
    && r < |s.requests| && s.requests[r].status.Landed? && s.requests[r].turn < |s.turns|
    && r !in s.turns[s.requests[r].turn].taken
  }

  predicate Took(s: State, r: nat) {
    r < |s.requests| && s.requests[r].turn < |s.turns| && r in s.turns[s.requests[r].turn].taken
  }

  ghost predicate MayTake(s: State, r: nat) { exists more :: IsRun(s, more) && Took(After(s, more), r) }

  /** The turn is no longer the session's, or its loop is on the way out. */
  predicate Gone(s: State, t: nat) { s.active != Some(t) || s.phase.Drained? || s.phase.Abandoned? }

  // ---- gone, it is never taken ----

  predicate Left(s: State, r: nat) { Waits(s, r) && Gone(s, s.requests[r].turn) }

  lemma StaysLeft(s: State, l: Label, r: nat)
    requires Inv(s) && Enabled(s, l) && Left(s, r)
    ensures Left(Next(s, l), r)
  {
    hide TurnOk;
  }

  lemma {:induction false} NeverTaken(s: State, more: seq<Label>, r: nat)
    requires Inv(s) && IsRun(s, more) && Left(s, r)
    ensures !Took(After(s, more), r)
    decreases more
  {
    hide Inv, Enabled, Next, Gone;
    if more != [] {
      StaysLeft(s, more[0], r);
      StepKeeps(s, more[0]);
      NeverTaken(Next(s, more[0]), more[1..], r);
    }
  }

  // ---- otherwise the loop comes to it ----

  lemma TakesThen(s: State, l: Label, r: nat)
    requires Enabled(s, l) && MayTake(Next(s, l), r)
    ensures MayTake(s, r)
  {
    hide Enabled, Next, Took;
    var v := Next(s, l);
    var more :| IsRun(v, more) && Took(After(v, more), r);
    assert ([l] + more)[1..] == more;
    assert IsRun(s, [l] + more) && After(s, [l] + more) == After(v, more);
  }

  lemma TookMay(s: State, r: nat)
    requires Took(s, r)
    ensures MayTake(s, r)
  {
    hide Took;
    assert IsRun(s, []) && After(s, []) == s;
  }

  /** The request waits in the turn that the loop serves. */
  predicate Coming(s: State, r: nat) {
    && Running(s) && s.active == Some(Current(s)) && r in s.turns[Current(s)].pending
    && r < |s.requests| && s.requests[r].turn == Current(s)
  }

  lemma HeadIsOwn(s: State)
    requires Inv(s) && Running(s) && s.turns[Current(s)].pending != []
    ensures var h := s.turns[Current(s)].pending[0]; h < |s.requests| && s.requests[h].turn == Current(s)
  {
    HeadIsLive(Current(s), s.turns[Current(s)], s.requests);
  }

  /** The head is settled, if it has not been, and taken. */
  lemma TakesFromAwaiting(s: State, r: nat)
    requires Inv(s) && Coming(s, r) && s.phase.Awaiting?
    ensures MayTake(s, r)
    decreases |s.turns[Current(s)].pending|, if s.turns[Current(s)].pending[0] == s.phase.request then 1 else 3,
              if s.requests[s.phase.request].status.Aborting? then 1 else 0
  {
    hide MayTake, TurnOk;
    var x := s.phase.request;
    var l := if s.requests[x].status.Aborting? then Settle(x, true) else Claim;
    var v := Next(s, l);
    StepKeeps(s, l);
    if l.Settle? {
      TakesFromAwaiting(v, r);
    } else if s.turns[Current(s)].pending[0] == x {
      var q := s.turns[Current(s)].pending;
      if x == r {
        assert r in s.turns[Current(s)].taken + [x];
        TookMay(v, r);
      } else {
        assert q == [q[0]] + q[1..];
        TakesFromPrompting(v, r);
      }
    } else {
      TakesFromChecking(v, r);
    }
    TakesThen(s, l, r);
  }

  lemma TakesFromPrompting(s: State, r: nat)
    requires Inv(s) && Coming(s, r) && s.phase.Prompting?
    ensures MayTake(s, r)
    decreases |s.turns[Current(s)].pending|, 3
  {
    hide MayTake, TurnOk;
    StepKeeps(s, Answered);
    TakesFromChecking(Next(s, Answered), r);
    TakesThen(s, Answered, r);
  }

  /** The head of the queue becomes the request awaited, so the next claim is of it. */
  lemma TakesFromChecking(s: State, r: nat)
    requires Inv(s) && Coming(s, r) && s.phase.Checking?
    ensures MayTake(s, r)
    decreases |s.turns[Current(s)].pending|, 2
  {
    hide MayTake, TurnOk;
    var v := Next(s, Check);
    StepKeeps(s, Check);
    TakesFromAwaiting(v, r);
    TakesThen(s, Check, r);
  }

  // ---- exactly when ----

  lemma WaitsIsPending(s: State, r: nat)
    requires Inv(s) && Waits(s, r)
    ensures r in s.turns[s.requests[r].turn].pending
  {
    var t := s.requests[r].turn;
    assert TurnOk(t, s.turns[t], s.requests);
    AliveMembers(s.turns[t].arrivals, s.requests);
    assert r in s.turns[t].taken + s.turns[t].pending;
  }

  /** A steer that was reported as landed and is not yet taken, at any point of any interleaving, is taken by no
  continuation if and only if its turn was detached or its loop is on the way out. */
  lemma LostExactly(run: seq<Label>, r: nat)
    requires IsRun(INIT, run) && Waits(After(INIT, run), r)
    ensures !MayTake(After(INIT, run), r) <==> Gone(After(INIT, run), After(INIT, run).requests[r].turn)
  {
    hide TurnOk;
    RunKeeps(INIT, run);
    var s := After(INIT, run);
    if Gone(s, s.requests[r].turn) {
      forall more | IsRun(s, more) ensures !Took(After(s, more), r) { NeverTaken(s, more, r); }
    } else {
      WaitsIsPending(s, r);
      if s.phase.Prompting? { TakesFromPrompting(s, r); }
      else if s.phase.Checking? { TakesFromChecking(s, r); }
      else { TakesFromAwaiting(s, r); }
    }
  }

  /** It comes to that by nothing but Close or an interruption of RunTurn. */
  lemma LostByExactly(run: seq<Label>, l: Label, r: nat)
    requires IsRun(INIT, run) && Waits(After(INIT, run), r) && Enabled(After(INIT, run), l)
    requires !Gone(After(INIT, run), After(INIT, run).requests[r].turn)
    ensures var s' := Next(After(INIT, run), l);
            Waits(s', r) && Gone(s', s'.requests[r].turn) <==> l.Close? || l.Interrupt?
  {
    hide TurnOk;
    RunKeeps(INIT, run);
    WaitsIsPending(After(INIT, run), r);
  }

  /** The shortest such run: a steer lands while the native prompt runs, and the session is closed. */
  lemma LandedIsLost()
    ensures exists run :: IsRun(INIT, run) && Waits(After(INIT, run), 0) && !MayTake(After(INIT, run), 0)
  {
    hide MayTake, TurnOk;
    var run := [Begin, Enter, Settle(0, true), Label.Close];
    var s1 := Next(INIT, Begin);
    var s2 := Next(s1, Enter);
    var s3 := Next(s2, Settle(0, true));
    var s4 := Next(s3, Label.Close);
    assert run[1..] == [Enter, Settle(0, true), Label.Close] && run[1..][1..] == [Settle(0, true), Label.Close];
    assert run[1..][1..][1..] == [Label.Close] && run[1..][1..][1..][1..] == [];
    assert IsRun(s4, []) && After(s4, []) == s4;
    assert IsRun(s3, [Label.Close]) && After(s3, [Label.Close]) == s4;
    assert IsRun(s2, run[1..][1..]) && After(s2, run[1..][1..]) == s4;
    assert IsRun(s1, run[1..]) && After(s1, run[1..]) == s4;
    assert IsRun(INIT, run) && After(INIT, run) == s4;
    LostExactly(run, 0);
  }

  /** A steer enters the running turn while that accepts any, at the end of its queue, and else does nothing. */
  lemma EnterExactly(s: State)
    requires Inv(s)
    ensures var s', r := Next(s, Enter), |s.requests|;
            if s.active.Some? && s.turns[s.active.value].accepting then
              var t := s.active.value;
              && s'.requests == s.requests + [Request(t, Aborting)] && |s'.turns| == |s.turns|
              && s'.turns[t].pending == s.turns[t].pending + [r] && s'.turns[t].accepting
              && (forall u | 0 <= u < |s.turns| && u != t :: s'.turns[u] == s.turns[u])
              && s'.active == s.active && s'.phase == s.phase
            else s' == s
  {
    hide TurnOk;
  }

  /** A steer is reported as landed if and only if the abort went through while its turn was still the session's. Otherwise
  it fails and leaves the queue, and no other request does. */
  lemma SettleExactly(s: State, r: nat, aborted: bool)
    requires Inv(s) && Enabled(s, Settle(r, aborted))
    ensures var s', t := Next(s, Settle(r, aborted)), s.requests[r].turn;
            && |s'.requests| == |s.requests| && s'.requests[r].turn == t && s'.active == s.active && s'.phase == s.phase
            && (s'.requests[r].status.Landed? <==> s.active == Some(t) && aborted)
            && (!s'.requests[r].status.Landed? ==> s'.requests[r].status.Failed?)
            && (forall x | 0 <= x < |s.requests| && x != r :: s'.requests[x] == s.requests[x])
            && (s'.requests[r].status.Landed? ==> s'.turns == s.turns)
            && (s'.requests[r].status.Failed? ==>
                  r !in s'.turns[t].pending && forall x | x != r :: x in s'.turns[t].pending <==> x in s.turns[t].pending)
  {
    var t := s.requests[r].turn;
    assert TurnOk(t, s.turns[t], s.requests);
    PendingOnce(t, s.turns[t], s.requests);
    WithoutMembers(s.turns[t].pending, r);
  }

  lemma PendingOnce(t: nat, turn: Turn, requests: seq<Request>)
    requires TurnOk(t, turn, requests)
    ensures Increasing(turn.pending)
  {
    AliveMembers(turn.arrivals, requests);
    var all := turn.taken + turn.pending;
    forall i, j | 0 <= i < j < |turn.pending| ensures turn.pending[i] < turn.pending[j] {
      assert all[|turn.taken| + i] == turn.pending[i] && all[|turn.taken| + j] == turn.pending[j];
    }
  }

  lemma {:induction false} WithoutMembers(q: seq<nat>, r: nat)
    requires Increasing(q)
    ensures r !in Without(q, r) && forall x | x != r :: x in Without(q, r) <==> x in q
  {
    if q != [] {
      assert q == [q[0]] + q[1..];
      assert Increasing(q[1..]);
      if q[0] == r {
        assert forall i | 0 <= i < |q[1..]| :: q[1..][i] == q[i + 1] && q[0] < q[i + 1];
      } else {
        WithoutMembers(q[1..], r);
      }
    }
  }
}
