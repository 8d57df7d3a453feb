/** The hand-off of steered messages to a running OpenCode turn (opencode/adapter.go:142-200, 230-267, 324-335,
441-483). Every region under the session's lock is one label; any number of Steer calls, the loop of RunTurn and
Close interleave freely. */
module SteerQueue {
  import opened Wrappers

  /** A queued request aborts the native prompt before it settles. */
  datatype Status = Aborting | Landed | Failed
  datatype Request = Request(turn: nat, status: Status)

  /** `taken` and `arrivals` remember what the loop took and what Steer calls queued, in order. */
  datatype Turn = Turn(pending: seq<nat>, accepting: bool, taken: seq<nat>, arrivals: seq<nat>)

  /** Where the loop of RunTurn is; Drained is its exit through an empty queue. */
  datatype Phase = Absent | Prompting | Checking | Awaiting(request: nat) | Drained | Abandoned

  /** Turns and requests are numbered as they appear; the loop serves the last turn. */
  datatype State = State(active: Option<nat>, turns: seq<Turn>, requests: seq<Request>, phase: Phase)

  datatype Label =
    | Begin
    | Answered
    | Check
    | Claim
    | Interrupt
    | Leave
    | Enter
    | Settle(request: nat, aborted: bool)
    | Close

  const INIT := State(None, [], [], Absent)

  function Current(s: State): nat
    requires s.turns != []
  {
    |s.turns| - 1
  }

  function IndexOf(q: seq<nat>, r: nat): Option<nat> {
    if q == [] then None
    else if q[0] == r then Some(0)
    else
      var i := IndexOf(q[1..], r);
      if i.Some? then Some(i.value + 1) else None
  }

  function Without(q: seq<nat>, r: nat): seq<nat> {
    if q == [] then [] else if q[0] == r then q[1..] else [q[0]] + Without(q[1..], r)
  }

  function Stop(s: State, t: nat): State
    requires t < |s.turns|
  {
    s.(turns := s.turns[t := s.turns[t].(accepting := false)])
  }

  predicate Running(s: State) { !s.phase.Absent? && s.turns != [] }

  predicate Enabled(s: State, l: Label) {
    match l
    case Begin => s.phase.Absent?
    case Answered => Running(s) && s.phase.Prompting?
    case Check => Running(s) && s.phase.Checking?
    case Claim => Running(s) && s.phase.Awaiting? && s.phase.request < |s.requests| && !s.requests[s.phase.request].status.Aborting?
    case Interrupt => Running(s) && (s.phase.Prompting? || s.phase.Awaiting?)
    case Leave => Running(s) && (s.phase.Drained? || s.phase.Abandoned?)
    case Enter => true
    case Settle(r, _) => r < |s.requests| && s.requests[r].status.Aborting? && s.requests[r].turn < |s.turns|
    case Close => s.active.Some? ==> s.active.value < |s.turns|
  }

  function Next(s: State, l: Label): State
    requires Enabled(s, l)
  {
    match l
    case Begin => State(Some(|s.turns|), s.turns + [Turn([], true, [], [])], s.requests, Prompting)
    case Answered => s.(phase := Checking)
    case Check =>
      var t := Current(s);
      if s.active != Some(t) then s.(phase := Abandoned)
      else if s.turns[t].pending == [] then Stop(s, t).(phase := Drained)
      else s.(phase := Awaiting(s.turns[t].pending[0]))
    case Claim =>
      var t, r := Current(s), s.phase.request;
      var q := s.turns[t].pending;
      if s.active != Some(t) then s.(phase := Abandoned)
      else if q != [] && q[0] == r
      then s.(turns := s.turns[t := s.turns[t].(pending := q[1..], taken := s.turns[t].taken + [r])], phase := Prompting)
      else s.(phase := Checking)
    case Interrupt => s.(phase := Abandoned)
    case Leave => (if s.active == Some(Current(s)) then Stop(s, Current(s)).(active := None) else s).(phase := Absent)
    case Enter =>
      if s.active.Some? && s.active.value < |s.turns| && s.turns[s.active.value].accepting then
        var t, r := s.active.value, |s.requests|;
        var turn := s.turns[t];
        s.(turns := s.turns[t := turn.(pending := turn.pending + [r], arrivals := turn.arrivals + [r])],
           requests := s.requests + [Request(t, Aborting)])
      else s
    case Settle(r, aborted) =>
      var t := s.requests[r].turn;
      if s.active == Some(t) && aborted then s.(requests := s.requests[r := Request(t, Landed)])
      else s.(turns := s.turns[t := s.turns[t].(pending := Without(s.turns[t].pending, r))],
              requests := s.requests[r := Request(t, Failed)])
    case Close =>
      if s.active.Some? then Stop(s, s.active.value).(active := None) else s
  }

  // ---- removal ----

  /** removeSteer (adapter.go:476-483). */
  method RemoveSteer(pending: seq<nat>, request: nat) returns (rest: seq<nat>)
    ensures rest == Without(pending, request)
    ensures request !in pending ==> rest == pending
    ensures request in pending ==>
              exists i :: 0 <= i < |pending| && pending[i] == request && request !in pending[..i] && rest == pending[..i] + pending[i + 1..]
  {
    for i := 0 to |pending|
      invariant request !in pending[..i]
    {
      if pending[i] == request {
        WithoutAt(pending, request, i);
        return pending[..i] + pending[i + 1..];
      }
    }
    assert pending[..|pending|] == pending;
    WithoutNone(pending, request);
    rest := pending;
  }

  lemma {:induction false} WithoutAt(q: seq<nat>, r: nat, i: nat)
    requires i < |q| && q[i] == r && r !in q[..i]
    ensures Without(q, r) == q[..i] + q[i + 1..]
  {
    if i > 0 {
      assert q[..i][0] == q[0] && q[1..][..i - 1] == q[..i][1..];
      WithoutAt(q[1..], r, i - 1);
      assert [q[0]] + (q[1..][..i - 1] + q[1..][i..]) == q[..i] + q[i + 1..];
    }
  }

  lemma {:induction false} WithoutNone(q: seq<nat>, r: nat)
    requires r !in q
    ensures Without(q, r) == q
  {
    if q != [] {
      assert forall x | x in q[1..] :: x in q;
      WithoutNone(q[1..], r);
    }
  }

  // ---- the invariant ----

  /** The requests of a turn that did not fail, in arrival order. */
  function Alive(arrivals: seq<nat>, requests: seq<Request>): seq<nat> {
    if arrivals == [] then []
    else
      var last := arrivals[|arrivals| - 1];
      Alive(arrivals[..|arrivals| - 1], requests) +
      (if last < |requests| && !requests[last].status.Failed? then [last] else [])
  }

  predicate Increasing(q: seq<nat>) { forall i, j | 0 <= i < j < |q| :: q[i] < q[j] }

  /** What was taken and what still waits are together the turn's requests that did not fail, in order. */
  predicate InOrder(turn: Turn, requests: seq<Request>) { turn.taken + turn.pending == Alive(turn.arrivals, requests) }

  predicate TurnOk(t: nat, turn: Turn, requests: seq<Request>) {
    && Increasing(turn.arrivals) && InOrder(turn, requests)
    && (forall r | r in turn.arrivals :: r < |requests| && requests[r].turn == t)
    && (forall r | 0 <= r < |requests| && requests[r].turn == t :: r in turn.arrivals)
    && (forall r | r in turn.taken :: r < |requests| && requests[r].status.Landed?)
  }

  predicate PhaseOk(s: State) {
    && (Running(s) || s.phase.Absent?)
    && (s.phase.Awaiting? ==> s.phase.request < |s.requests| && s.requests[s.phase.request].turn == Current(s))
    && (s.phase.Drained? ==> s.turns[Current(s)].pending == [] && !s.turns[Current(s)].accepting)
  }

  predicate Inv(s: State) {
    && (forall t | 0 <= t < |s.turns| :: TurnOk(t, s.turns[t], s.requests))
    && (forall r | 0 <= r < |s.requests| :: s.requests[r].turn < |s.turns|)
    && (forall t | 0 <= t < |s.turns| && s.turns[t].accepting :: s.active == Some(t))
    && (s.active.Some? ==> Running(s) && s.active.value == Current(s))
    && PhaseOk(s)
  }

  // ---- facts about the live requests ----

  lemma AliveNext(arrivals: seq<nat>, requests: seq<Request>, r: nat)
    ensures Alive(arrivals + [r], requests) ==
            Alive(arrivals, requests) + (if r < |requests| && !requests[r].status.Failed? then [r] else [])
  {
    assert (arrivals + [r])[..|arrivals|] == arrivals;
  }

  /** Only the failures of the listed requests matter. */
  lemma {:induction false} AliveSame(arrivals: seq<nat>, requests: seq<Request>, requests': seq<Request>)
    requires forall r | r in arrivals :: (r < |requests| && !requests[r].status.Failed?) <==> (r < |requests'| && !requests'[r].status.Failed?)
    ensures Alive(arrivals, requests') == Alive(arrivals, requests)
  {
    if arrivals != [] {
      assert arrivals[|arrivals| - 1] in arrivals;
      assert forall r | r in arrivals[..|arrivals| - 1] :: r in arrivals;
      AliveSame(arrivals[..|arrivals| - 1], requests, requests');
    }
  }

  lemma {:induction false} AliveMembers(arrivals: seq<nat>, requests: seq<Request>)
    requires Increasing(arrivals)
    ensures Increasing(Alive(arrivals, requests))
    ensures forall r :: r in Alive(arrivals, requests) <==> r in arrivals && r < |requests| && !requests[r].status.Failed?
  {
    if arrivals != [] {
      var init, last := arrivals[..|arrivals| - 1], arrivals[|arrivals| - 1];
      AliveMembers(init, requests);
      assert arrivals == init + [last];
      forall x | x in init ensures x < last {
        var i :| 0 <= i < |init| && init[i] == x;
        assert arrivals[i] == x;
      }
      if last < |requests| && !requests[last].status.Failed? {
        IncreasingAppend(Alive(init, requests), last);
      } else {
        assert Alive(arrivals, requests) == Alive(init, requests);
      }
    }
  }

  lemma IncreasingAppend(q: seq<nat>, x: nat)
    requires Increasing(q) && forall y | y in q :: y < x
    ensures Increasing(q + [x]) && forall y :: y in q + [x] <==> y in q || y == x
  {
    assert forall i | 0 <= i < |q| :: q[i] in q;
  }

  lemma {:induction false} WithoutAppend(q: seq<nat>, x: nat, r: nat)
    ensures Without(q + [x], r) == if r in q then Without(q, r) + [x] else if x == r then q else q + [x]
  {
    if q == [] {
      assert [x][1..] == [];
    } else {
      assert (q + [x])[0] == q[0] && (q + [x])[1..] == q[1..] + [x];
      WithoutAppend(q[1..], x, r);
      assert q == [q[0]] + q[1..];
      assert [q[0]] + (q[1..] + [x]) == q + [x];
      assert [q[0]] + (Without(q[1..], r) + [x]) == [q[0]] + Without(q[1..], r) + [x];
    }
  }

  lemma {:induction false} WithoutPrefix(a: seq<nat>, b: seq<nat>, r: nat)
    requires r !in a
    ensures Without(a + b, r) == a + Without(b, r)
  {
    if a == [] {
      assert a + b == b;
    } else {
      assert (a + b)[0] == a[0] && (a + b)[1..] == a[1..] + b;
      assert forall x | x in a[1..] :: x in a;
      WithoutPrefix(a[1..], b, r);
      assert [a[0]] + (a[1..] + Without(b, r)) == a + Without(b, r);
    }
  }

  /** A request that fails leaves the live ones as if it had been removed. */
  lemma {:induction false} AliveFails(arrivals: seq<nat>, requests: seq<Request>, r: nat)
    requires Increasing(arrivals) && r < |requests| && !requests[r].status.Failed?
    ensures var requests' := requests[r := Request(requests[r].turn, Failed)];
            Alive(arrivals, requests') == Without(Alive(arrivals, requests), r)
  {
    if arrivals != [] {
      var requests' := requests[r := Request(requests[r].turn, Failed)];
      var init, last := arrivals[..|arrivals| - 1], arrivals[|arrivals| - 1];
      AliveFails(init, requests, r);
      AliveMembers(init, requests);
      assert arrivals == init + [last];
      assert r == last ==> r !in init by {
        forall i | 0 <= i < |init| ensures init[i] < last { assert arrivals[i] < arrivals[|init|]; }
      }
      if last < |requests| && !requests[last].status.Failed? {
        WithoutAppend(Alive(init, requests), last, r);
        if r !in Alive(init, requests) { WithoutNone(Alive(init, requests), r); }
        assert Alive(init, requests') + [] == Alive(init, requests');
      } else {
        assert Alive(arrivals, requests) == Alive(init, requests) && Alive(arrivals, requests') == Alive(init, requests');
      }
    }
  }

  // ---- every step keeps the invariant ----

  lemma EnterTurn(t: nat, turn: Turn, requests: seq<Request>)
    requires TurnOk(t, turn, requests)
    ensures var r := |requests|;
            TurnOk(t, turn.(pending := turn.pending + [r], arrivals := turn.arrivals + [r]), requests + [Request(t, Aborting)])
  {
    hide Increasing, InOrder;
    var r, requests' := |requests|, requests + [Request(t, Aborting)];
    EnterOrder(t, turn, requests);
    IncreasingAppend(turn.arrivals, r);
    forall k | 0 <= k < |requests'| && requests'[k].turn == t ensures k in turn.arrivals + [r] {
      if k < r { assert requests[k].turn == t; }
    }
  }

  lemma EnterOrder(t: nat, turn: Turn, requests: seq<Request>)
    requires InOrder(turn, requests) && forall r | r in turn.arrivals :: r < |requests|
    ensures var r := |requests|;
            InOrder(turn.(pending := turn.pending + [r], arrivals := turn.arrivals + [r]), requests + [Request(t, Aborting)])
  {
    var r, requests' := |requests|, requests + [Request(t, Aborting)];
    AliveSame(turn.arrivals, requests, requests');
    AliveNext(turn.arrivals, requests', r);
    assert turn.taken + (turn.pending + [r]) == turn.taken + turn.pending + [r];
  }

  lemma EnterOthers(t: nat, turn: Turn, requests: seq<Request>, other: nat)
    requires TurnOk(t, turn, requests) && other != t
    ensures TurnOk(t, turn, requests + [Request(other, Aborting)])
  {
    AliveSame(turn.arrivals, requests, requests + [Request(other, Aborting)]);
  }

  lemma EnterKeeps(s: State)
    requires Inv(s)
    ensures Inv(Next(s, Enter))
  {
    hide TurnOk;
    var s' := Next(s, Enter);
    if s' != s {
      var a := s.active.value;
      forall t | 0 <= t < |s'.turns| ensures TurnOk(t, s'.turns[t], s'.requests) {
        if t == a { EnterTurn(t, s.turns[t], s.requests); } else { EnterOthers(t, s.turns[t], s.requests, a); }
      }
    }
  }

  lemma SettleTurn(t: nat, turn: Turn, requests: seq<Request>, r: nat)
    requires TurnOk(t, turn, requests) && r < |requests| && requests[r].status.Aborting? && requests[r].turn == t
    ensures TurnOk(t, turn, requests[r := Request(t, Landed)])
    ensures TurnOk(t, turn.(pending := Without(turn.pending, r)), requests[r := Request(t, Failed)])
  {
    AliveSame(turn.arrivals, requests, requests[r := Request(t, Landed)]);
    AliveFails(turn.arrivals, requests, r);
    assert r !in turn.taken;
    WithoutPrefix(turn.taken, turn.pending, r);
  }

  lemma SettleOthers(t: nat, turn: Turn, requests: seq<Request>, r: nat, status: Status)
    requires TurnOk(t, turn, requests) && r < |requests| && requests[r].turn != t
    ensures TurnOk(t, turn, requests[r := Request(requests[r].turn, status)])
  {
    AliveSame(turn.arrivals, requests, requests[r := Request(requests[r].turn, status)]);
    TakenAreOwn(t, turn, requests);
  }

  lemma TakenAreOwn(t: nat, turn: Turn, requests: seq<Request>)
    requires TurnOk(t, turn, requests)
    ensures forall r | r in turn.taken :: r in turn.arrivals
  {
    AliveMembers(turn.arrivals, requests);
    forall r | r in turn.taken ensures r in turn.arrivals {
      assert r in turn.taken + turn.pending;
      assert r in Alive(turn.arrivals, requests);
    }
  }

  lemma SettleKeeps(s: State, r: nat, aborted: bool)
    requires Inv(s) && Enabled(s, Settle(r, aborted))
    ensures Inv(Next(s, Settle(r, aborted)))
  {
    var s' := Next(s, Settle(r, aborted));
    forall t | 0 <= t < |s'.turns| ensures TurnOk(t, s'.turns[t], s'.requests) {
      if t == s.requests[r].turn { SettleTurn(t, s.turns[t], s.requests, r); }
      else { SettleOthers(t, s.turns[t], s.requests, r, s'.requests[r].status); }
    }
  }

  /** The head of the queue is claimed only after it settled, and it settled as landed. */
  lemma ClaimTakes(t: nat, turn: Turn, requests: seq<Request>)
    requires TurnOk(t, turn, requests) && turn.pending != []
    requires turn.pending[0] < |requests| && !requests[turn.pending[0]].status.Aborting?
    ensures TurnOk(t, turn.(pending := turn.pending[1..], taken := turn.taken + [turn.pending[0]]), requests)
  {
    var r := turn.pending[0];
    HeadIsLive(t, turn, requests);
    AliveMembers(turn.arrivals, requests);
    assert (turn.taken + turn.pending)[|turn.taken|] == r;
    assert r in Alive(turn.arrivals, requests);
    assert turn.taken + turn.pending == turn.taken + [r] + turn.pending[1..];
  }

  lemma ClaimKeeps(s: State)
    requires Inv(s) && Enabled(s, Claim)
    ensures Inv(Next(s, Claim))
  {
    var t := Current(s);
    assert TurnOk(t, s.turns[t], s.requests);
    if s.turns[t].pending != [] && s.turns[t].pending[0] == s.phase.request {
      ClaimTakes(t, s.turns[t], s.requests);
    }
  }

  lemma StepKeeps(s: State, l: Label)
    requires Inv(s) && Enabled(s, l)
    ensures Inv(Next(s, l))
  {
    match l
    case Enter => EnterKeeps(s);
    case Settle(r, aborted) => SettleKeeps(s, r, aborted);
    case Claim => ClaimKeeps(s);
    case Check =>
      HeadIsLive(Current(s), s.turns[Current(s)], s.requests);
    case Begin => AliveNone(s.requests);
    case _ =>
  }

  lemma AliveNone(requests: seq<Request>)
    ensures Alive([], requests) == []
  {
  }

  lemma HeadIsLive(t: nat, turn: Turn, requests: seq<Request>)
    requires TurnOk(t, turn, requests)
    ensures turn.pending != [] ==> turn.pending[0] < |requests| && requests[turn.pending[0]].turn == t
  {
    AliveMembers(turn.arrivals, requests);
    if turn.pending != [] {
      assert (turn.taken + turn.pending)[|turn.taken|] == turn.pending[0];
      assert turn.pending[0] in Alive(turn.arrivals, requests);
    }
  }

  predicate IsRun(s: State, run: seq<Label>)
    decreases run
  {
    run == [] || (Enabled(s, run[0]) && IsRun(Next(s, run[0]), run[1..]))
  }

  function After(s: State, run: seq<Label>): State
    requires IsRun(s, run)
    decreases run
  {
    if run == [] then s else After(Next(s, run[0]), run[1..])
  }

  lemma {:induction false} RunKeeps(s: State, run: seq<Label>)
    requires Inv(s) && IsRun(s, run)
    ensures Inv(After(s, run))
    decreases run
  {
    if run != [] {
      StepKeeps(s, run[0]);
      RunKeeps(Next(s, run[0]), run[1..]);
    }
  }

  // ---- the promises ----

  /** In every interleaving a request is taken at most once, in queue order, and only if its Steer reports landed. */
  lemma TakenOnceInOrder(run: seq<Label>, t: nat)
    requires IsRun(INIT, run) && t < |After(INIT, run).turns|
    ensures var s := After(INIT, run);
            Increasing(s.turns[t].taken) &&
            (forall r | r in s.turns[t].taken :: r < |s.requests| && s.requests[r] == Request(t, Landed))
  {
    RunKeeps(INIT, run);
    var s := After(INIT, run);
    var turn := s.turns[t];
    assert TurnOk(t, turn, s.requests);
    AliveMembers(turn.arrivals, s.requests);
    forall i, j | 0 <= i < j < |turn.taken| ensures turn.taken[i] < turn.taken[j] {
      assert turn.taken[i] == (turn.taken + turn.pending)[i] && turn.taken[j] == (turn.taken + turn.pending)[j];
    }
  }

  /** Once the queue was found empty with the turn still active. */
  predicate Closed(s: State, t: nat) {
    t < |s.turns| && s.turns[t].pending == [] && !s.turns[t].accepting
  }

  lemma CheckCloses(s: State)
    requires Inv(s) && Enabled(s, Check) && Next(s, Check).phase.Drained?
    ensures Closed(Next(s, Check), Current(s))
  {
  }

  /** From then on every landed steer of the turn has been taken, none is in flight, and none is accepted later. */
  lemma {:induction false} ClosedStaysDrained(s: State, t: nat, run: seq<Label>)
    requires Inv(s) && Closed(s, t) && IsRun(s, run)
    ensures var s' := After(s, run);
            && Closed(s', t) && s'.turns[t].arrivals == s.turns[t].arrivals && s'.turns[t].taken == s.turns[t].taken
            && (forall r | 0 <= r < |s'.requests| && s'.requests[r].turn == t ::
                  s'.requests[r].status.Failed? || (s'.requests[r].status.Landed? && r in s'.turns[t].taken))
    decreases run
  {
    if run == [] {
      AllTaken(s, t);
    } else {
      StepKeeps(s, run[0]);
      StepStaysClosed(s, t, run[0]);
      ClosedStaysDrained(Next(s, run[0]), t, run[1..]);
    }
  }

  lemma AllTaken(s: State, t: nat)
    requires Inv(s) && Closed(s, t)
    ensures forall r | 0 <= r < |s.requests| && s.requests[r].turn == t ::
              s.requests[r].status.Failed? || (s.requests[r].status.Landed? && r in s.turns[t].taken)
  {
    assert TurnOk(t, s.turns[t], s.requests);
    AliveMembers(s.turns[t].arrivals, s.requests);
    assert s.turns[t].taken + [] == s.turns[t].taken;
  }

  lemma StepStaysClosed(s: State, t: nat, l: Label)
    requires Inv(s) && Closed(s, t) && Enabled(s, l)
    ensures Closed(Next(s, l), t)
    ensures Next(s, l).turns[t].arrivals == s.turns[t].arrivals && Next(s, l).turns[t].taken == s.turns[t].taken
  {
  }

  // ---- the regions under the session's lock ----

  class Session {
    var active: Option<nat>
    /** The active turns so far; the last is the one whose RunTurn holds the session. */
    var turns: seq<Turn>
    /** The settled channels: a request is Aborting until its channel closes. */
    var requests: seq<Request>
    var phase: Phase

    ghost function View(): State
      reads this
    {
      State(active, turns, requests, phase)
    }

    constructor ()
      ensures View() == INIT
    {
      active, turns, requests, phase := None, [], [], Absent;
    }

    /** adapter.go:142-149 */
    method BeginTurn()
      requires Enabled(View(), Begin)
      modifies this
      ensures View() == Next(old(View()), Begin)
    {
      turns := turns + [Turn([], true, [], [])];
      active := Some(|turns| - 1);
      phase := Prompting;
    }

    /** The first region of takeSteer (adapter.go:443-452); without a request the loop is over. */
    method FirstPending() returns (request: Option<nat>)
      requires Enabled(View(), Check)
      modifies this
      ensures View() == Next(old(View()), Check) && request == (if phase.Awaiting? then Some(phase.request) else None)
    {
      var t := |turns| - 1;
      if active != Some(t) || |turns[t].pending| == 0 {
        phase := Abandoned;
        if active == Some(t) {
          turns := turns[t := turns[t].(accepting := false)];
          phase := Drained;
        }
        return None;
      }
      request := Some(turns[t].pending[0]);
      phase := Awaiting(turns[t].pending[0]);
    }

    /** The second region of takeSteer, once the request has settled (adapter.go:460-470). */
    method ClaimPending(request: nat) returns (taken: bool)
      requires Enabled(View(), Claim) && phase == Awaiting(request)
      modifies this
      ensures View() == Next(old(View()), Claim)
      ensures taken ==> turns[|turns| - 1].taken == old(turns)[|turns| - 1].taken + [request]
    {
      var t := |turns| - 1;
      if active != Some(t) {
        phase := Abandoned;
        return false;
      }
      var turn := turns[t];
      taken := |turn.pending| > 0 && turn.pending[0] == request;
      if taken {
        turns := turns[t := turn.(pending := turn.pending[1..], taken := turn.taken + [request])];
        phase := Prompting;
      } else {
        phase := Checking;
      }
    }

    /** The deferred end of RunTurn (adapter.go:150-160). */
    method EndTurn()
      requires Enabled(View(), Leave)
      modifies this
      ensures View() == Next(old(View()), Leave)
    {
      var t := |turns| - 1;
      if active == Some(t) {
        turns := turns[t := turns[t].(accepting := false)];
        active := None;
      }
      phase := Absent;
    }

    /** The first region of Steer (adapter.go:235-246). */
    method QueueSteer() returns (request: Option<nat>)
      requires Inv(View())
      modifies this
      ensures View() == Next(old(View()), Label.Enter)
      ensures request.Some? <==> active.Some? && turns[active.value].accepting
    {
      if active.Some? && turns[active.value].accepting {
        var t, r := active.value, |requests|;
        turns := turns[t := turns[t].(pending := turns[t].pending + [r], arrivals := turns[t].arrivals + [r])];
        requests := requests + [Request(t, Aborting)];
        return Some(r);
      }
      request := None;
    }

    /** The second region of Steer, after the abort (adapter.go:249-266). */
    method SettleSteer(r: nat, aborted: bool) returns (landed: bool)
      requires Enabled(View(), Settle(r, aborted))
      modifies this
      ensures View() == Next(old(View()), Settle(r, aborted)) && landed == requests[r].status.Landed?
    {
      var t := requests[r].turn;
      landed := active == Some(t) && aborted;
      if !landed {
        var rest := RemoveSteer(turns[t].pending, r);
        turns := turns[t := turns[t].(pending := rest)];
      }
      requests := requests[r := Request(t, if landed then Landed else Failed)];
    }

    /** The region of Close under the session's lock (adapter.go:324-330). */
    method CloseTurn()
      requires Enabled(View(), Label.Close)
      modifies this
      ensures View() == Next(old(View()), Label.Close)
    {
      if active.Some? {
        turns := turns[active.value := turns[active.value].(accepting := false)];
      }
      active := None;
    }
  }
}
