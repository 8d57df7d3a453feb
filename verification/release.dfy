/** Who releases a native session (scope.go:149-170, 267-308, session.go:818-859): the teardown
of the owning scope, or the admission that finds the session already closed. Every region under a lock is one label;
sessions are adopted and native ids handed out at any time, before, during and after teardown, in a fresh run. */
module Release {
  import opened Wrappers

  type Native = string
  datatype Party = Teardown | Admission

  /** `closing` are the sessions that teardown has taken and not looked at yet. */
  datatype Scope = Scope(ended: bool, sessions: seq<nat>, closing: seq<nat>)
  /** `handed` is what the adapter answered; `due` is the party that has decided to release. */
  datatype Session = Session(owner: nat, closed: bool, handed: Option<Native>, native: Option<Native>, due: Option<Party>)

  datatype World = World(scopes: seq<Scope>, sessions: seq<Session>, released: seq<(nat, Native)>)

  const INIT := World([], [], [])

  datatype Label =
    | Begin
    | Adopt(scope: nat)
    | HandOut(session: nat, id: Native)
    | AdoptNative(session: nat)
    | End(scope: nat)
    | Close(scope: nat)
    | Release(session: nat)

  predicate Enabled(w: World, l: Label) {
    match l
    case Begin => true
    case Adopt(p) => p < |w.scopes|
    case HandOut(s, id) => s < |w.sessions| && w.sessions[s].handed.None? && id != ""
    case AdoptNative(s) => s < |w.sessions| && w.sessions[s].handed.Some? && w.sessions[s].native.None?
    case End(p) => p < |w.scopes| && !w.scopes[p].ended
    case Close(p) => p < |w.scopes| && w.scopes[p].closing != [] && w.scopes[p].closing[0] < |w.sessions|
    case Release(s) => s < |w.sessions| && w.sessions[s].due.Some? && w.sessions[s].native.Some?
  }

  function Put(w: World, s: nat, x: Session): World
    requires s < |w.sessions|
  {
    w.(sessions := w.sessions[s := x])
  }

  function Next(w: World, l: Label): World
    requires Enabled(w, l)
  {
    match l
    case Begin => w.(scopes := w.scopes + [Scope(false, [], [])])
    case Adopt(p) =>
      var scope := w.scopes[p];
      w.(scopes := w.scopes[p := scope.(sessions := scope.sessions + [|w.sessions|])],
         sessions := w.sessions + [Session(p, scope.ended, None, None, None)])
    case HandOut(s, id) => Put(w, s, w.sessions[s].(handed := Some(id)))
    case AdoptNative(s) =>
      var x := w.sessions[s];
      Put(w, s, x.(native := x.handed, due := if x.closed then Some(Admission) else x.due))
    case End(p) => w.(scopes := w.scopes[p := Scope(true, [], w.scopes[p].sessions)])
    case Close(p) =>
      var scope := w.scopes[p];
      var s := scope.closing[0];
      var x := w.sessions[s];
      Put(w, s, x.(closed := true, due := if x.native.Some? then Some(Teardown) else x.due))
        .(scopes := w.scopes[p := scope.(closing := scope.closing[1..])])
    case Release(s) =>
      var x := w.sessions[s];
      Put(w, s, x.(due := None)).(released := w.released + [(s, x.native.value)])
  }

  // ---- the invariant ----

  function Count(released: seq<(nat, Native)>, s: nat): nat {
    if released == [] then 0
    else Count(released[..|released| - 1], s) + (if released[|released| - 1].0 == s then 1 else 0)
  }

  function Owed(w: World, s: nat): nat
    requires s < |w.sessions|
  {
    Count(w.released, s) + (if w.sessions[s].due.Some? then 1 else 0)
  }

  predicate Held(w: World, s: nat) {
    s < |w.sessions| && w.sessions[s].owner < |w.scopes| &&
    var scope := w.scopes[w.sessions[s].owner];
    if scope.ended then s in scope.closing else s in scope.sessions
  }

  predicate SessionOk(w: World, s: nat)
    requires s < |w.sessions|
  {
    var x := w.sessions[s];
    && x.owner < |w.scopes| && (x.native.Some? ==> x.handed == x.native)
    && (!x.closed ==> Held(w, s))
    && (if x.native.Some? && x.closed then Owed(w, s) == 1 else Owed(w, s) == 0)
  }

  predicate Distinct(q: seq<nat>) { forall i, j | 0 <= i < j < |q| :: q[i] != q[j] }

  predicate ScopeOk(w: World, p: nat)
    requires p < |w.scopes|
  {
    var scope := w.scopes[p];
    && Distinct(scope.closing)
    && (forall s | s in scope.closing :: s < |w.sessions| && w.sessions[s].owner == p && !w.sessions[s].closed)
    && (!scope.ended ==> scope.closing == [] && Distinct(scope.sessions))
    && (!scope.ended ==> forall s | s in scope.sessions :: s < |w.sessions| && w.sessions[s].owner == p && !w.sessions[s].closed)
  }

  predicate Inv(w: World) {
    && (forall s | 0 <= s < |w.sessions| :: SessionOk(w, s))
    && (forall p | 0 <= p < |w.scopes| :: ScopeOk(w, p))
    && (forall r | r in w.released :: r.0 < |w.sessions| && w.sessions[r.0].native == Some(r.1))
  }

  lemma CountNext(released: seq<(nat, Native)>, r: (nat, Native), s: nat)
    ensures Count(released + [r], s) == Count(released, s) + (if r.0 == s then 1 else 0)
  {
    assert (released + [r])[..|released|] == released;
  }

  lemma {:induction false} CountNone(released: seq<(nat, Native)>, s: nat)
    requires forall r | r in released :: r.0 != s
    ensures Count(released, s) == 0
  {
    if released != [] {
      assert released[|released| - 1] in released;
      assert forall r | r in released[..|released| - 1] :: r in released;
      CountNone(released[..|released| - 1], s);
    }
  }

  // ---- every step keeps it ----

  lemma AdoptKeeps(w: World, p: nat)
    requires Inv(w) && Enabled(w, Adopt(p))
    ensures Inv(Next(w, Adopt(p)))
  {
    var w' := Next(w, Adopt(p));
    CountNone(w.released, |w.sessions|);
    forall s | 0 <= s < |w'.sessions| ensures SessionOk(w', s) {
      if s < |w.sessions| { assert SessionOk(w, s); }
    }
    forall q | 0 <= q < |w'.scopes| ensures ScopeOk(w', q) {
      assert ScopeOk(w, q);
      if q == p && !w.scopes[p].ended {
        var was, now := w.scopes[p].sessions, w'.scopes[p].sessions;
        assert forall i | 0 <= i < |was| :: now[i] == was[i] && was[i] in was;
        assert Distinct(now);
      }
    }
  }

  lemma EndKeeps(w: World, p: nat)
    requires Inv(w) && Enabled(w, End(p))
    ensures Inv(Next(w, End(p)))
  {
    var w' := Next(w, End(p));
    forall s | 0 <= s < |w'.sessions| ensures SessionOk(w', s) { assert SessionOk(w, s); }
    forall q | 0 <= q < |w'.scopes| ensures ScopeOk(w', q) { assert ScopeOk(w, q); }
  }

  lemma CloseKeeps(w: World, p: nat)
    requires Inv(w) && Enabled(w, Close(p))
    ensures Inv(Next(w, Close(p)))
  {
    var w' := Next(w, Close(p));
    var q := w.scopes[p].closing;
    var c := q[0];
    assert ScopeOk(w, p) && SessionOk(w, c);
    forall s ensures s in q[1..] <==> s in q && s != c {
      assert q == [c] + q[1..];
      if s in q[1..] {
        var i :| 0 <= i < |q[1..]| && q[1..][i] == s;
        assert q[i + 1] == s;
      }
    }
    forall s | 0 <= s < |w'.sessions| ensures SessionOk(w', s) { assert SessionOk(w, s); }
    forall o | 0 <= o < |w'.scopes| ensures ScopeOk(w', o) { assert ScopeOk(w, o); }
  }

  /** A step on one session that leaves its owner and its closing alone. */
  lemma SessionKeeps(w: World, s: nat, x: Session, released: seq<(nat, Native)>)
    requires Inv(w) && s < |w.sessions| && x.owner == w.sessions[s].owner && x.closed == w.sessions[s].closed
    requires forall o | o != s :: Count(released, o) == Count(w.released, o)
    requires SessionOk(Put(w, s, x).(released := released), s)
    requires forall r | r in released :: if r.0 == s then x.native == Some(r.1) else r in w.released
    ensures Inv(Put(w, s, x).(released := released))
  {
    var w' := Put(w, s, x).(released := released);
    forall o | 0 <= o < |w'.sessions| ensures SessionOk(w', o) { if o != s { assert SessionOk(w, o); } }
    forall p | 0 <= p < |w'.scopes| ensures ScopeOk(w', p) { assert ScopeOk(w, p); }
  }

  lemma StepKeeps(w: World, l: Label)
    requires Inv(w) && Enabled(w, l)
    ensures Inv(Next(w, l))
  {
    match l
    case Begin =>
      forall s | 0 <= s < |w.sessions| ensures SessionOk(Next(w, l), s) { assert SessionOk(w, s); }
      forall p | 0 <= p < |w.scopes| ensures ScopeOk(Next(w, l), p) { assert ScopeOk(w, p); }
    case Adopt(p) => AdoptKeeps(w, p);
    case End(p) => EndKeeps(w, p);
    case Close(p) => CloseKeeps(w, p);
    case HandOut(s, id) =>
      assert SessionOk(w, s);
      SessionKeeps(w, s, w.sessions[s].(handed := Some(id)), w.released);
    case AdoptNative(s) =>
      assert SessionOk(w, s);
      SessionKeeps(w, s, Next(w, l).sessions[s], w.released);
    case Release(s) =>
      assert SessionOk(w, s);
      forall o { CountNext(w.released, (s, w.sessions[s].native.value), o); }
      SessionKeeps(w, s, w.sessions[s].(due := None), w.released + [(s, w.sessions[s].native.value)]);
  }

  predicate IsRun(w: World, run: seq<Label>)
    decreases run
  {
    run == [] || (Enabled(w, run[0]) && IsRun(Next(w, run[0]), run[1..]))
  }

  function After(w: World, run: seq<Label>): World
    requires IsRun(w, run)
    decreases run
  {
    if run == [] then w else After(Next(w, run[0]), run[1..])
  }

  lemma {:induction false} RunKeeps(w: World, run: seq<Label>)
    requires Inv(w) && IsRun(w, run)
    ensures Inv(After(w, run))
    decreases run
  {
    if run != [] {
      StepKeeps(w, run[0]);
      RunKeeps(Next(w, run[0]), run[1..]);
    }
  }

  // ---- the promises ----

  /** No native id is ever released twice, and none before its owner has closed the session. */
  lemma NeverTwice(run: seq<Label>, s: nat)
    requires IsRun(INIT, run) && s < |After(INIT, run).sessions|
    ensures var w := After(INIT, run);
            Count(w.released, s) <= 1 && (Count(w.released, s) == 1 ==> w.sessions[s].closed && w.sessions[s].native.Some?)
  {
    RunKeeps(INIT, run);
    assert SessionOk(After(INIT, run), s);
  }

  /** Teardown is over in every scope, and every admission has finished. */
  predicate Quiet(w: World) {
    && (forall p | 0 <= p < |w.scopes| :: w.scopes[p].ended && w.scopes[p].closing == [])
    && (forall s | 0 <= s < |w.sessions| :: w.sessions[s].native == w.sessions[s].handed && w.sessions[s].due.None?)
  }

  /** Then each native id that the adapter handed out has been released exactly once, and no other. */
  lemma ReleasedExactlyOnce(run: seq<Label>, s: nat)
    requires IsRun(INIT, run) && Quiet(After(INIT, run)) && s < |After(INIT, run).sessions|
    ensures var w := After(INIT, run);
            && Count(w.released, s) == (if w.sessions[s].handed.Some? then 1 else 0)
            && forall r | r in w.released :: r.0 < |w.sessions| && w.sessions[r.0].handed == Some(r.1)
  {
    RunKeeps(INIT, run);
    assert SessionOk(After(INIT, run), s);
    assert forall r | r in After(INIT, run).released :: SessionOk(After(INIT, run), r.0);
  }

  /** The steps of teardown and of admissions under way; the others bring new work. */
  predicate Finishing(l: Label) { l.End? || l.Close? || l.AdoptNative? || l.Release? }

  /** Until the world is quiet someone may go on: whoever owes a release, or has still to look. */
  lemma SomeoneMayGoOn(w: World)
    requires Inv(w)
    ensures Quiet(w) <==> !exists l: Label :: Finishing(l) && Enabled(w, l)
  {
    if !Quiet(w) { GoesOn(w); }
  }

  lemma GoesOn(w: World)
    requires Inv(w) && !Quiet(w)
    ensures exists l: Label :: Finishing(l) && Enabled(w, l)
  {
    if p :| 0 <= p < |w.scopes| && !(w.scopes[p].ended && w.scopes[p].closing == []) {
      assert ScopeOk(w, p);
      if !w.scopes[p].ended { assert Enabled(w, End(p)); }
      else {
        assert w.scopes[p].closing[0] in w.scopes[p].closing;
        assert Enabled(w, Close(p));
      }
    } else {
      var s :| 0 <= s < |w.sessions| && !(w.sessions[s].native == w.sessions[s].handed && w.sessions[s].due.None?);
      assert SessionOk(w, s);
      if w.sessions[s].native.None? { assert Enabled(w, AdoptNative(s)); } else { assert Enabled(w, Label.Release(s)); }
    }
  }

  // ---- it comes to an end ----

  function ScopeLeft(x: Scope): nat { if x.ended then 2 * |x.closing| else 1 + 2 * |x.sessions| }

  function SessionLeft(x: Session): nat {
    (if x.handed.Some? && x.native.None? then 2 else 0) + (if x.due.Some? then 1 else 0)
  }

  function ScopesLeft(xs: seq<Scope>): nat {
    if xs == [] then 0 else ScopesLeft(xs[..|xs| - 1]) + ScopeLeft(xs[|xs| - 1])
  }

  function SessionsLeft(xs: seq<Session>): nat {
    if xs == [] then 0 else SessionsLeft(xs[..|xs| - 1]) + SessionLeft(xs[|xs| - 1])
  }

  /** How many finishing steps there can still be, if no new work comes. */
  function Left(w: World): nat { ScopesLeft(w.scopes) + SessionsLeft(w.sessions) }

  lemma {:induction false} ScopeChanged(xs: seq<Scope>, i: nat, x: Scope)
    requires i < |xs|
    ensures ScopesLeft(xs[i := x]) + ScopeLeft(xs[i]) == ScopesLeft(xs) + ScopeLeft(x)
  {
    var n := |xs| - 1;
    if i == n {
      assert xs[i := x][..n] == xs[..n];
    } else {
      assert xs[i := x][..n] == xs[..n][i := x];
      ScopeChanged(xs[..n], i, x);
    }
  }

  lemma {:induction false} SessionChanged(xs: seq<Session>, i: nat, x: Session)
    requires i < |xs|
    ensures SessionsLeft(xs[i := x]) + SessionLeft(xs[i]) == SessionsLeft(xs) + SessionLeft(x)
  {
    var n := |xs| - 1;
    if i == n {
      assert xs[i := x][..n] == xs[..n];
    } else {
      assert xs[i := x][..n] == xs[..n][i := x];
      SessionChanged(xs[..n], i, x);
    }
  }

  lemma FinishingGoesDown(w: World, l: Label)
    requires Inv(w) && Enabled(w, l) && Finishing(l)
    ensures Left(Next(w, l)) < Left(w)
  {
    hide ScopesLeft, SessionsLeft;
    var w' := Next(w, l);
    match l
    case End(p) => ScopeChanged(w.scopes, p, w'.scopes[p]);
    case Close(p) =>
      var s := w.scopes[p].closing[0];
      assert ScopeOk(w, p);
      ScopeChanged(w.scopes, p, w'.scopes[p]);
      SessionChanged(w.sessions, s, w'.sessions[s]);
    case AdoptNative(s) => SessionChanged(w.sessions, s, w'.sessions[s]);
    case Release(s) => SessionChanged(w.sessions, s, w'.sessions[s]);
  }

  predicate AllFinishing(run: seq<Label>) { forall l | l in run :: Finishing(l) }

  lemma {:induction false} FinishingIsShort(w: World, run: seq<Label>)
    requires Inv(w) && IsRun(w, run) && AllFinishing(run)
    ensures |run| + Left(After(w, run)) <= Left(w)
    decreases run
  {
    hide Inv, Enabled, Next, Left;
    if run != [] {
      assert run[0] in run;
      StepKeeps(w, run[0]);
      FinishingGoesDown(w, run[0]);
      FinishingIsShort(Next(w, run[0]), run[1..]);
    }
  }

  /** Whatever order they go on in: without new work at most `Left` finishing steps follow, and once none is possible
  the world is quiet. */
  lemma FinishingEndsQuiet(run: seq<Label>, more: seq<Label>)
    requires IsRun(INIT, run) && IsRun(After(INIT, run), more) && AllFinishing(more)
    ensures var w, v := After(INIT, run), After(After(INIT, run), more);
            |more| <= Left(w) && (Quiet(v) <==> !exists l: Label :: Finishing(l) && Enabled(v, l))
  {
    hide Left, Quiet, Enabled, Inv;
    InitOk();
    RunKeeps(INIT, run);
    RunKeeps(After(INIT, run), more);
    FinishingIsShort(After(INIT, run), more);
    SomeoneMayGoOn(After(After(INIT, run), more));
  }

  lemma InitOk()
    ensures Inv(INIT)
  {
  }

  /** So a quiet world can be reached from every reachable one. */
  lemma {:induction false} QuietIsReachable(w: World) returns (more: seq<Label>)
    requires Inv(w)
    ensures IsRun(w, more) && AllFinishing(more) && Quiet(After(w, more))
    decreases Left(w)
  {
    hide Left, Quiet, Enabled, Inv, Next, Finishing;
    more := [];
    if !Quiet(w) {
      GoesOn(w);
      var l: Label :| Finishing(l) && Enabled(w, l);
      FinishingGoesDown(w, l);
      StepKeeps(w, l);
      var rest := QuietIsReachable(Next(w, l));
      more := [l] + rest;
      assert more[1..] == rest;
    }
  }

  // ---- the regions as the code runs them ----

  class Run {
    var scopes: seq<Scope>
    var sessions: seq<Session>
    var released: seq<(nat, Native)>

    ghost function View(): World
      reads this
    {
      World(scopes, sessions, released)
    }

    constructor ()
      ensures View() == INIT
    {
      scopes, sessions, released := [], [], [];
    }

    /** The last region of adopt (scope.go:166-169). */
    method AdoptSession(p: nat) returns (s: nat)
      requires Enabled(View(), Adopt(p))
      modifies this
      ensures View() == Next(old(View()), Adopt(p)) && s == |old(sessions)|
    {
      s := |sessions|;
      sessions := sessions + [Session(p, scopes[p].ended, None, None, None)];
      scopes := scopes[p := scopes[p].(sessions := scopes[p].sessions + [s])];
    }

    /** session.go:820-832, with the adapter's answer, which is empty when it made nothing; true when this admission
    releases. */
    method AdoptNativeId(s: nat, id: Native) returns (releases: bool)
      requires s < |sessions| && (id != "" ==> sessions[s].handed == Some(id) && sessions[s].native.None?)
      modifies this
      ensures id == "" ==> View() == old(View()) && !releases
      ensures id != "" ==> View() == Next(old(View()), AdoptNative(s)) && releases == old(sessions)[s].closed
    {
      if id == "" { return false; }
      var closed := sessions[s].closed;
      sessions := sessions[s := sessions[s].(native := Some(id))];
      if closed { sessions := sessions[s := sessions[s].(due := Some(Admission))]; }
      releases := closed;
    }

    method StopNative(s: nat)
      requires Enabled(View(), Label.Release(s))
      modifies this
      ensures View() == Next(old(View()), Label.Release(s))
    {
      released := released + [(s, sessions[s].native.value)];
      sessions := sessions[s := sessions[s].(due := None)];
    }

    /** The walk of teardown over the sessions it took (scope.go:272-308), with nothing else in between. */
    method StopOwnedWork(p: nat) returns (ghost run: seq<Label>)
      requires Inv(View()) && Enabled(View(), End(p))
      modifies this
      ensures IsRun(old(View()), run) && View() == After(old(View()), run) && Inv(View())
      ensures |scopes| == |old(scopes)| && scopes[p] == Scope(true, [], [])
      ensures |sessions| == |old(sessions)|
      ensures forall s | s in old(scopes)[p].sessions :: s < |sessions| && sessions[s].closed
    {
      ghost var w0 := View();
      var owned := scopes[p].sessions;
      scopes := scopes[p := Scope(true, [], owned)];
      run := [End(p)];
      Extend(w0, [], End(p));
      assert [] + [End(p)] == [End(p)];
      StepKeeps(w0, End(p));
      assert ScopeOk(w0, p);
      for i := 0 to |owned|
        invariant IsRun(w0, run) && View() == After(w0, run) && Inv(View())
        invariant |scopes| == |old(scopes)| && |sessions| == |old(sessions)| && scopes[p] == Scope(true, [], owned[i..])
        invariant forall k | 0 <= k < i :: owned[k] < |sessions| && sessions[owned[k]].closed
      {
        assert ScopeOk(View(), p) && owned[i] in owned[i..];
        run := LookAt(w0, run, p, owned[i]);
      }
    }

    /** One session of the walk: mark it closed, and release what it holds. */
    method LookAt(ghost w0: World, ghost before: seq<Label>, p: nat, s: nat) returns (ghost run: seq<Label>)
      requires IsRun(w0, before) && View() == After(w0, before) && Inv(View())
      requires p < |scopes| && scopes[p].closing != [] && scopes[p].closing[0] == s && s < |sessions|
      modifies this
      ensures IsRun(w0, run) && View() == After(w0, run) && Inv(View())
      ensures scopes == old(scopes)[p := old(scopes)[p].(closing := old(scopes)[p].closing[1..])]
      ensures |sessions| == |old(sessions)| && sessions[s].closed
      ensures forall o | 0 <= o < |sessions| && o != s :: sessions[o] == old(sessions)[o]
    {
      var native := sessions[s].native;
      Extend(w0, before, Close(p));
      StepKeeps(View(), Close(p));
      run := before + [Close(p)];
      assert SessionOk(View(), s) && ScopeOk(View(), p);
      scopes := scopes[p := scopes[p].(closing := scopes[p].closing[1..])];
      sessions := sessions[s := sessions[s].(closed := true, due := if native.Some? then Some(Teardown) else sessions[s].due)];
      if native.Some? {
        Extend(w0, run, Label.Release(s));
        StepKeeps(View(), Label.Release(s));
        run := run + [Label.Release(s)];
        StopNative(s);
      }
    }
  }

  lemma {:induction false} Extend(w: World, run: seq<Label>, l: Label)
    requires IsRun(w, run) && Enabled(After(w, run), l)
    ensures IsRun(w, run + [l]) && After(w, run + [l]) == Next(After(w, run), l)
    decreases run
  {
    if run == [] {
      assert run + [l] == [l] && [l][1..] == [];
    } else {
      assert (run + [l])[0] == run[0] && (run + [l])[1..] == run[1..] + [l];
      Extend(Next(w, run[0]), run[1..], l);
    }
  }
}
