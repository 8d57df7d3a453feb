/** Which journals of positions there can be (session.go:251-272, 1036-1083). A session's processes enter
interactions, generate and crash; a generation writes its position unless the journal that this process loaded
already has one at its node. While a re-entered interaction uses the session alone every input keeps one position, so
the order of the walk in positions.dfy is immaterial; two interactions that share a session can write a second one. */
module Generations {
  import opened Wrappers
  import opened Positions

  /** One session over all its processes. `untouched` is the interaction that entered last, as long as nothing has
  generated since; `entered` holds the active input that each interaction was entered with in this process; `done`
  holds the inputs that have been generated for in it. */
  datatype Use = Use(session: NodeId, journal: Journal, loaded: Journal, nodes: map<int, NodeId>,
                     generations: int, turns: int, untouched: Option<NodeId>,
                     entered: map<NodeId, string>, done: set<(NodeId, string)>)

  datatype Label =
    | Restart
    | Enter(interaction: NodeId, input: string, visit: seq<NodeId>, g: int, t: int)
    | Generate(interaction: NodeId, input: string, id: NodeId)
    | Plain(id: NodeId)
    | Turned(parent: NodeId, id: NodeId)

  function Init(session: NodeId): Use { Use(session, map[], map[], map[], 0, 0, None, map[], {}) }

  function RecordsOf(j: Journal, k: NodeId): seq<Record> { if k in j then j[k] else [] }

  /** Does the journal that was loaded have a position at this node (replay.go:93-100)? */
  predicate HasFact(j: Journal, k: NodeId) { exists r :: r in RecordsOf(j, k) && r.Positioned? }

  ghost predicate HasPosition(u: Use, j: Journal, interaction: NodeId, input: string) {
    exists p :: p in Recorded(Owner(u.session, interaction), j) && p.input == input
  }

  /** The node of a generation's ordinal is one and the same in every process. */
  predicate NodeFor(u: Use, id: NodeId) {
    var g := u.generations + 1;
    if g in u.nodes then id == u.nodes[g] else id !in u.nodes.Values && id !in u.journal
  }

  /** An input is generated for when it has just become active, or when its interaction was entered with it active;
  once in a process (interactive.go:127-216). */
  ghost predicate Enabled(u: Use, l: Label) {
    match l
    case Restart => true
    case Enter(n, input, visit, g, t) =>
      && n !in u.entered && Walks(visit, u.loaded)
      && var o := Owner(u.session, n);
         Restored(o, u.loaded, Found(o, input, u.loaded, visit), u.generations, u.turns, g, t)
    case Generate(n, input, id) =>
      && n in u.entered && input != "" && (n, input) !in u.done && NodeFor(u, id)
      && (u.entered[n] == input || !HasPosition(u, u.journal, n, input))
    case Plain(id) => NodeFor(u, id)
    case Turned(_, id) => id !in u.journal && id !in u.nodes.Values
  }

  function Next(u: Use, l: Label): Use {
    match l
    case Restart => u.(loaded := u.journal, generations := 0, turns := 0, untouched := None, entered := map[], done := {})
    case Enter(n, input, _, g, t) =>
      u.(generations := g, turns := t, untouched := Some(n), entered := u.entered[n := input])
    case Generate(n, input, id) =>
      var g := u.generations + 1;
      var r := Positioned(u.session, Position(n, input, g, u.turns));
      u.(journal := if HasFact(u.loaded, id) then u.journal else u.journal[id := RecordsOf(u.journal, id) + [r]],
         nodes := u.nodes[g := id], generations := g, untouched := None, done := u.done + {(n, input)})
    case Plain(id) =>
      u.(nodes := u.nodes[u.generations + 1 := id], generations := u.generations + 1, untouched := None)
    case Turned(parent, id) =>
      u.(journal := u.journal[id := [Created(parent, "turn", u.turns + 1)]], turns := u.turns + 1)
  }

  // ---- the invariant ----

  predicate IsAt(u: Use, k: NodeId, r: Record) {
    r.Positioned? ==> r.session == u.session && r.position.generation in u.nodes && u.nodes[r.position.generation] == k
  }

  ghost predicate Places(u: Use) {
    && (forall g, h | g in u.nodes && h in u.nodes && u.nodes[g] == u.nodes[h] :: g == h)
    && (forall k, r | k in u.journal && r in u.journal[k] :: IsAt(u, k, r))
    && (forall k | k in u.loaded :: k in u.journal && u.loaded[k] <= u.journal[k])
  }

  /** A position that this process did not load it wrote itself. */
  ghost predicate Fresh(u: Use) {
    forall n, input | HasPosition(u, u.journal, n, input) :: HasPosition(u, u.loaded, n, input) || (n, input) in u.done
  }

  ghost predicate AllOne(u: Use) { forall n, input :: OnePosition(Owner(u.session, n), input, u.journal) }

  /** Right after an entry the counter stands before the active input's own position. */
  ghost predicate Poised(u: Use) {
    u.untouched.Some? ==>
      && u.untouched.value in u.entered
      && forall p | p in Recorded(Owner(u.session, u.untouched.value), u.loaded) &&
                    p.input == u.entered[u.untouched.value] && p.input != "" :: u.generations == p.generation - 1
  }

  ghost predicate Inv(u: Use) { Places(u) && Fresh(u) }

  // ---- members ----

  lemma RecordedIff(o: Owner, j: Journal, p: Position)
    ensures p in Recorded(o, j) <==> exists k, r :: k in j && r in j[k] && Mine(o, r) && r.position == p
  {
    forall k | k in j ensures p in Positions.Positions(o, j[k]) <==> exists r :: r in j[k] && Mine(o, r) && r.position == p {
      PositionsMembers(o, j[k], p);
    }
  }

  lemma RecordedGrows(o: Owner, j: Journal, k: NodeId, r: Record)
    ensures Recorded(o, j[k := RecordsOf(j, k) + [r]]) == Recorded(o, j) + (if Mine(o, r) then {r.position} else {})
  {
    var j' := j[k := RecordsOf(j, k) + [r]];
    forall p ensures p in Recorded(o, j') <==> p in Recorded(o, j) || (Mine(o, r) && p == r.position) {
      RecordedIff(o, j, p);
      RecordedIff(o, j', p);
      if Mine(o, r) && p == r.position { assert r in j'[k]; }
      if l, x :| l in j && x in j[l] && Mine(o, x) && x.position == p { assert x in j'[l]; }
      if l, x :| l in j' && x in j'[l] && Mine(o, x) && x.position == p {
        assert l != k ==> x in j[l];
        assert l == k ==> x == r || (k in j && x in j[k]);
      }
    }
  }

  lemma RecordedLoaded(u: Use, o: Owner)
    requires Places(u)
    ensures Recorded(o, u.loaded) <= Recorded(o, u.journal)
  {
    forall p | p in Recorded(o, u.loaded) ensures p in Recorded(o, u.journal) {
      RecordedIff(o, u.loaded, p);
      RecordedIff(o, u.journal, p);
      var k, r :| k in u.loaded && r in u.loaded[k] && Mine(o, r) && r.position == p;
      assert k in u.journal && r in u.journal[k];
    }
  }

  /** A loaded position is a fact of its own ordinal's node. */
  lemma LoadedHasFact(u: Use, n: NodeId, p: Position)
    requires Places(u) && p in Recorded(Owner(u.session, n), u.loaded)
    ensures p.generation in u.nodes && HasFact(u.loaded, u.nodes[p.generation])
  {
    RecordedIff(Owner(u.session, n), u.loaded, p);
    var k, r :| k in u.loaded && r in u.loaded[k] && Mine(Owner(u.session, n), r) && r.position == p;
    assert k in u.journal && r in u.journal[k];
    assert IsAt(u, k, r);
    assert r in RecordsOf(u.loaded, k);
  }

  // ---- every step keeps it ----

  lemma GeneratePlaces(u: Use, l: Label)
    requires Inv(u) && Enabled(u, l) && l.Generate?
    ensures Places(Next(u, l))
  {
    var u', g := Next(u, l), u.generations + 1;
    forall k, r | k in u'.journal && r in u'.journal[k] ensures IsAt(u', k, r) {
      if k in u.journal && r in u.journal[k] { assert IsAt(u, k, r); }
    }
  }

  lemma GenerateFresh(u: Use, l: Label)
    requires Inv(u) && Enabled(u, l) && l.Generate?
    ensures Fresh(Next(u, l))
  {
    hide Recorded, HasFact, Places, NodeFor;
    var u' := Next(u, l);
    var r := Positioned(u.session, Position(l.interaction, l.input, u.generations + 1, u.turns));
    forall n, input | HasPosition(u', u'.journal, n, input)
      ensures HasPosition(u', u'.loaded, n, input) || (n, input) in u'.done
    {
      var p :| p in Recorded(Owner(u.session, n), u'.journal) && p.input == input;
      RecordedGrows(Owner(u.session, n), u.journal, l.id, r);
      if p in Recorded(Owner(u.session, n), u.journal) {
        assert HasPosition(u, u.journal, n, input);
      }
    }
  }

  lemma QuietKeeps(u: Use, l: Label)
    requires Inv(u) && Enabled(u, l) && (l.Plain? || l.Enter?)
    ensures Inv(Next(u, l))
  {
    var u' := Next(u, l);
    forall k, r | k in u'.journal && r in u'.journal[k] ensures IsAt(u', k, r) { assert IsAt(u, k, r); }
    assert Fresh(u') by {
      forall n, input | HasPosition(u', u'.journal, n, input)
        ensures HasPosition(u', u'.loaded, n, input) || (n, input) in u'.done
      {
        assert HasPosition(u, u.journal, n, input);
        assert HasPosition(u, u.loaded, n, input) || (n, input) in u.done;
      }
    }
  }

  lemma TurnedKeeps(u: Use, l: Label)
    requires Inv(u) && Enabled(u, l) && l.Turned?
    ensures Inv(Next(u, l)) && (AllOne(u) ==> AllOne(Next(u, l)))
  {
    var u', r := Next(u, l), Created(l.parent, "turn", u.turns + 1);
    assert [] + [r] == [r];
    forall o: Owner ensures Recorded(o, u'.journal) == Recorded(o, u.journal) { RecordedGrows(o, u.journal, l.id, r); }
    forall n, input | HasPosition(u', u'.journal, n, input)
      ensures HasPosition(u', u'.loaded, n, input) || (n, input) in u'.done
    {
      assert HasPosition(u, u.journal, n, input);
      assert HasPosition(u, u.loaded, n, input) || (n, input) in u.done;
    }
    forall k, x | k in u'.journal && x in u'.journal[k] ensures IsAt(u', k, x) {
      if k in u.journal && x in u.journal[k] { assert IsAt(u, k, x); }
    }
    if AllOne(u) {
      forall n, input ensures OnePosition(Owner(u'.session, n), input, u'.journal) {
        assert OnePosition(Owner(u.session, n), input, u.journal);
      }
    }
  }

  lemma RestartKeeps(u: Use)
    requires Inv(u)
    ensures Inv(Next(u, Restart))
  {
    var u' := Next(u, Restart);
    forall k, r | k in u'.journal && r in u'.journal[k] ensures IsAt(u', k, r) { assert IsAt(u, k, r); }
  }

  lemma StepKeeps(u: Use, l: Label)
    requires Inv(u) && Enabled(u, l)
    ensures Inv(Next(u, l))
  {
    hide Places, Fresh;
    match l
    case Restart => RestartKeeps(u);
    case Generate(_, _, _) => GeneratePlaces(u, l); GenerateFresh(u, l);
    case Turned(_, _) => TurnedKeeps(u, l);
    case Enter(_, _, _, _, _) => QuietKeeps(u, l);
    case Plain(_) => QuietKeeps(u, l);
  }

  // ---- when an input gets a second position ----

  /** The input has a position, and the ordinal that comes next is not the one it stands at. */
  ghost predicate Strays(u: Use, l: Label) {
    l.Generate? && HasPosition(u, u.journal, l.interaction, l.input) && !HasFact(u.loaded, l.id)
  }

  lemma OneAfterExactly(u: Use, l: Label)
    requires Inv(u) && Enabled(u, l) && AllOne(u)
    ensures AllOne(Next(u, l)) <==> !Strays(u, l)
  {
    if l.Generate? && !HasFact(u.loaded, l.id) {
      if Strays(u, l) { StraysSecond(u, l); } else { FirstIsOne(u, l); }
    } else if l.Turned? {
      TurnedKeeps(u, l);
    } else {
      SameOne(u, Next(u, l));
    }
  }

  lemma SameOne(u: Use, u': Use)
    requires AllOne(u) && u'.journal == u.journal && u'.session == u.session
    ensures AllOne(u')
  {
  }

  lemma FirstIsOne(u: Use, l: Label)
    requires Inv(u) && Enabled(u, l) && AllOne(u) && l.Generate? && !HasFact(u.loaded, l.id)
    requires !HasPosition(u, u.journal, l.interaction, l.input)
    ensures AllOne(Next(u, l))
  {
    hide Recorded;
    var u' := Next(u, l);
    var r := Positioned(u.session, Position(l.interaction, l.input, u.generations + 1, u.turns));
    forall n, input ensures OnePosition(Owner(u.session, n), input, u'.journal) {
      RecordedGrows(Owner(u.session, n), u.journal, l.id, r);
      assert OnePosition(Owner(u.session, n), input, u.journal);
    }
  }

  lemma StraysSecond(u: Use, l: Label)
    requires Inv(u) && Enabled(u, l) && AllOne(u) && Strays(u, l)
    ensures !AllOne(Next(u, l))
  {
    hide Recorded, Places;
    var o, u' := Owner(u.session, l.interaction), Next(u, l);
    var p := Position(l.interaction, l.input, u.generations + 1, u.turns);
    RecordedGrows(o, u.journal, l.id, Positioned(u.session, p));
    assert HasPosition(u, u.loaded, l.interaction, l.input);
    var q :| q in Recorded(o, u.loaded) && q.input == l.input;
    LoadedHasFact(u, l.interaction, q);
    RecordedLoaded(u, o);
    assert p != q;
    assert p in Recorded(o, u'.journal) && q in Recorded(o, u'.journal);
    assert !OnePosition(o, l.input, u'.journal);
  }

  // ---- whole runs ----

  ghost predicate IsRun(u: Use, run: seq<Label>)
    decreases run
  {
    run == [] || (Enabled(u, run[0]) && IsRun(Next(u, run[0]), run[1..]))
  }

  ghost function After(u: Use, run: seq<Label>): Use
    requires IsRun(u, run)
    decreases run
  {
    if run == [] then u else After(Next(u, run[0]), run[1..])
  }

  ghost predicate EverStrays(u: Use, run: seq<Label>)
    requires IsRun(u, run)
    decreases run
  {
    run != [] && (Strays(u, run[0]) || EverStrays(Next(u, run[0]), run[1..]))
  }

  ghost predicate AlwaysOne(u: Use, run: seq<Label>)
    requires IsRun(u, run)
    decreases run
  {
    AllOne(u) && (run != [] ==> AlwaysOne(Next(u, run[0]), run[1..]))
  }

  lemma {:induction false} OneExactlyFrom(u: Use, run: seq<Label>)
    requires Inv(u) && AllOne(u) && IsRun(u, run)
    ensures AlwaysOne(u, run) <==> !EverStrays(u, run)
    decreases run
  {
    hide Inv, Enabled, Next, AllOne, Strays;
    if run != [] {
      StepKeeps(u, run[0]);
      OneAfterExactly(u, run[0]);
      if !Strays(u, run[0]) {
        OneExactlyFrom(Next(u, run[0]), run[1..]);
      } else {
        NowNotOne(Next(u, run[0]), run[1..]);
      }
    }
  }

  lemma NowNotOne(u: Use, run: seq<Label>)
    requires IsRun(u, run) && !AllOne(u)
    ensures !AlwaysOne(u, run)
  {
  }

  lemma Opening(session: NodeId)
    ensures Inv(Init(session)) && AllOne(Init(session)) && Poised(Init(session))
  {
  }

  /** In every run: each input of each interaction has one position at all times, if and only if no input that already
  has one is generated for at an ordinal without. */
  lemma OnePositionExactly(session: NodeId, run: seq<Label>)
    requires IsRun(Init(session), run)
    ensures AlwaysOne(Init(session), run) <==> !EverStrays(Init(session), run)
  {
    Opening(session);
    OneExactlyFrom(Init(session), run);
  }

  // ---- a session used by one interaction at a time ----

  /** An input with a position is generated for before anything else is, after its interaction was entered. */
  ghost predicate Undisturbed(u: Use, l: Label) {
    l.Generate? && HasPosition(u, u.journal, l.interaction, l.input) ==> u.untouched == Some(l.interaction)
  }

  ghost predicate Alone(u: Use, run: seq<Label>)
    requires IsRun(u, run)
    decreases run
  {
    run == [] || (Undisturbed(u, run[0]) && Alone(Next(u, run[0]), run[1..]))
  }

  lemma EnterPoises(u: Use, l: Label)
    requires Inv(u) && AllOne(u) && Enabled(u, l) && l.Enter?
    ensures Poised(Next(u, l))
  {
    var o := Owner(u.session, l.interaction);
    FoundIsActive(o, l.input, u.loaded, l.visit);
    RecordedLoaded(u, o);
    assert OnePosition(o, l.input, u.journal);
  }

  lemma PoisedDoesNotStray(u: Use, l: Label)
    requires Inv(u) && AllOne(u) && Poised(u) && Enabled(u, l) && Undisturbed(u, l)
    ensures !Strays(u, l)
  {
    if l.Generate? && HasPosition(u, u.journal, l.interaction, l.input) {
      var o := Owner(u.session, l.interaction);
      assert HasPosition(u, u.loaded, l.interaction, l.input);
      var p :| p in Recorded(o, u.loaded) && p.input == l.input;
      LoadedHasFact(u, l.interaction, p);
    }
  }

  lemma StaysPoised(u: Use, l: Label)
    requires Inv(u) && AllOne(u) && Poised(u) && Enabled(u, l) && Undisturbed(u, l)
    ensures Poised(Next(u, l))
  {
    if l.Enter? { EnterPoises(u, l); }
  }

  lemma {:induction false} AloneFrom(u: Use, run: seq<Label>)
    requires Inv(u) && AllOne(u) && Poised(u) && IsRun(u, run) && Alone(u, run)
    ensures AllOne(After(u, run)) && Inv(After(u, run)) && !EverStrays(u, run)
    decreases run
  {
    hide Inv, Enabled, Next, AllOne, Strays, Poised, Undisturbed;
    if run != [] {
      PoisedDoesNotStray(u, run[0]);
      StepKeeps(u, run[0]);
      OneAfterExactly(u, run[0]);
      StaysPoised(u, run[0]);
      AloneFrom(Next(u, run[0]), run[1..]);
    }
  }

  /** A session used by one interaction at a time keeps one position for every input, through any crashes. */
  lemma AloneKeepsOne(session: NodeId, run: seq<Label>, n: NodeId, input: string)
    requires IsRun(Init(session), run) && Alone(Init(session), run)
    ensures OnePosition(Owner(session, n), input, After(Init(session), run).journal)
    ensures OrderFree(Owner(session, n), input, After(Init(session), run).journal)
  {
    Opening(session);
    AloneFrom(Init(session), run);
    SameSession(Init(session), run);
    var o, j := Owner(session, n), After(Init(session), run).journal;
    assert OnePosition(o, input, j);
    forall v, w | Walks(v, j) && Walks(w, j) ensures Found(o, input, j, v) == Found(o, input, j, w) {
      FoundIsActive(o, input, j, v);
      FoundIsActive(o, input, j, w);
    }
  }

  lemma {:induction false} SameSession(u: Use, run: seq<Label>)
    requires IsRun(u, run)
    ensures After(u, run).session == u.session
    decreases run
  {
    hide Enabled;
    if run != [] { SameSession(Next(u, run[0]), run[1..]); }
  }

  /** So the counters that such a session restores are a function of its journal, whatever the iteration orders. */
  lemma CountersAreDetermined(session: NodeId, run: seq<Label>, n: NodeId, input: string, v: seq<NodeId>, w: seq<NodeId>,
                              g0: int, t0: int, g: int, t: int, g': int, t': int)
    requires IsRun(Init(session), run) && Alone(Init(session), run)
    requires var j, o := After(Init(session), run).journal, Owner(session, n);
             && Walks(v, j) && Walks(w, j)
             && Restored(o, j, Found(o, input, j, v), g0, t0, g, t)
             && Restored(o, j, Found(o, input, j, w), g0, t0, g', t')
    ensures g == g' && t == t'
  {
    AloneKeepsOne(session, run, n, input);
    OneIsDetermined(Owner(session, n), input, After(Init(session), run).journal, v, w, g0, t0, g, t, g', t');
  }

  // ---- two interactions on one session ----

  const A1 := Position("a", "x", 1, 0)
  const B2 := Position("b", "y", 2, 0)
  const B3 := Position("b", "y", 3, 0)

  const ONE: Journal := map["n1" := [Positioned("s", A1)]]
  const TWO: Journal := map["n1" := [Positioned("s", A1)], "n2" := [Positioned("s", B2)]]
  const THREE: Journal := map["n1" := [Positioned("s", A1)], "n2" := [Positioned("s", B2)], "n3" := [Positioned("s", B3)]]
  const NODES: map<int, NodeId> := map[1 := "n1", 2 := "n2"]

  /** The first process: each interaction generates for its first input. */
  const U1 := Use("s", map[], map[], map[], 0, 0, Some("a"), map["a" := ""], {})
  const U2 := Use("s", ONE, map[], map[1 := "n1"], 1, 0, None, map["a" := ""], {("a", "x")})
  const U3 := U2.(untouched := Some("b"), entered := map["a" := "", "b" := ""])
  const U4 := Use("s", TWO, map[], NODES, 2, 0, None, map["a" := "", "b" := ""], {("a", "x"), ("b", "y")})
  /** After the crash both are entered with their inputs active, before either generates. */
  const U5 := Use("s", TWO, TWO, NODES, 0, 0, None, map[], {})
  const U6 := U5.(untouched := Some("a"), entered := map["a" := "x"])
  const U7 := U5.(generations := 1, untouched := Some("b"), entered := map["a" := "x", "b" := "y"])
  const U8 := U7.(generations := 2, untouched := None, done := {("a", "x")})
  const U9 := U8.(journal := THREE, nodes := NODES[3 := "n3"], generations := 3, done := {("a", "x"), ("b", "y")})

  ghost predicate Reaches(u: Use) { exists run :: IsRun(Init("s"), run) && After(Init("s"), run) == u }

  lemma {:induction false} Append(u: Use, run: seq<Label>, l: Label)
    requires IsRun(u, run) && Enabled(After(u, run), l)
    ensures IsRun(u, run + [l]) && After(u, run + [l]) == Next(After(u, run), l)
    decreases run
  {
    hide Enabled, Next;
    if run == [] {
      assert run + [l] == [l] && [l][1..] == [];
    } else {
      assert (run + [l])[1..] == run[1..] + [l];
      Append(Next(u, run[0]), run[1..], l);
    }
  }

  lemma ReachStep(u: Use, l: Label, u': Use)
    requires Reaches(u) && Enabled(u, l) && Next(u, l) == u'
    ensures Reaches(u')
  {
    hide Enabled, Next;
    var run :| IsRun(Init("s"), run) && After(Init("s"), run) == u;
    Append(Init("s"), run, l);
  }

  lemma EntersEmpty(u: Use, n: NodeId)
    requires u.loaded == map[] && n !in u.entered
    ensures Enabled(u, Enter(n, "", [], u.generations, u.turns))
  {
    var o := Owner(u.session, n);
    assert Recorded(o, map[]) == {} && RecordedTurns(o, map[]) == {};
    assert Highest(u.generations, u.turns, u.generations, u.turns, u.turns, o, u.loaded);
  }

  lemma NoPosition(u: Use, n: NodeId, input: string)
    requires forall k, r | k in u.journal && r in u.journal[k] && r.Positioned? :: r.position.interaction != n
    ensures !HasPosition(u, u.journal, n, input)
  {
    forall p ensures p !in Recorded(Owner(u.session, n), u.journal) { RecordedIff(Owner(u.session, n), u.journal, p); }
  }

  lemma FirstProcess()
    ensures Reaches(U4)
  {
    hide Reaches;
    ReachInit();
    EntersEmpty(Init("s"), "a");
    ReachStep(Init("s"), Enter("a", "", [], 0, 0), U1);
    NoPosition(U1, "a", "x");
    assert [] + [Positioned("s", A1)] == [Positioned("s", A1)];
    ReachStep(U1, Generate("a", "x", "n1"), U2);
    EntersEmpty(U2, "b");
    ReachStep(U2, Enter("b", "", [], 1, 0), U3);
    NoPosition(U3, "b", "y");
    assert [] + [Positioned("s", B2)] == [Positioned("s", B2)];
    ReachStep(U3, Generate("b", "y", "n2"), U4);
  }

  lemma ReachInit()
    ensures Reaches(Init("s"))
  {
    assert IsRun(Init("s"), []) && After(Init("s"), []) == Init("s");
  }

  const WALK := ["n1", "n2"]

  lemma WalkOfTwo()
    ensures Walks(WALK, TWO)
  {
  }

  lemma OneRecord(o: Owner, input: string, r: Record)
    ensures LastActive(o, input, [r]) == if Active(o, input, r) then Some(r.position) else None
  {
    assert [r][..0] == [];
  }

  lemma FoundInTwo(o: Owner, input: string)
    requires o.session == "s"
    ensures Found(o, input, TWO, WALK) ==
            if o.interaction == "b" && input == "y" then Some(B2)
            else if o.interaction == "a" && input == "x" then Some(A1) else None
  {
    OneRecord(o, input, Positioned("s", A1));
    OneRecord(o, input, Positioned("s", B2));
    assert WALK[..1] == ["n1"] && ["n1"][..0] == [];
    assert Found(o, input, TWO, ["n1"]) == if o.interaction == "a" && input == "x" then Some(A1) else None;
  }

  lemma SecondProcess()
    requires Reaches(U4)
    ensures Reaches(U9)
  {
    hide Reaches;
    ReachStep(U4, Restart, U5);
    WalkOfTwo();
    FoundInTwo(Owner("s", "a"), "x");
    ReachStep(U5, Enter("a", "x", WALK, 0, 0), U6);
    FoundInTwo(Owner("s", "b"), "y");
    ReachStep(U6, Enter("b", "y", WALK, 1, 0), U7);
    assert Positioned("s", B2) in RecordsOf(TWO, "n2");
    assert HasFact(TWO, "n2");
    ReachStep(U7, Generate("a", "x", "n2"), U8);
    assert RecordsOf(TWO, "n3") == [] && !HasFact(TWO, "n3");
    assert [] + [Positioned("s", B3)] == [Positioned("s", B3)];
    ReachStep(U8, Generate("b", "y", "n3"), U9);
  }

  /** Two interactions share a session and crash with an input active in each. Entered again before either generates,
  the first takes the second's ordinal, so the second's input gets a position at another node too, and what is
  restored the next time depends on the order of the walk. */
  lemma OrderCanMatter()
    ensures exists run :: IsRun(Init("s"), run) && !OrderFree(Owner("s", "b"), "y", After(Init("s"), run).journal)
  {
    FirstProcess();
    SecondProcess();
    var run :| IsRun(Init("s"), run) && After(Init("s"), run) == U9;
    var o := Owner("s", "b");
    OneRecord(o, "y", Positioned("s", B2));
    OneRecord(o, "y", Positioned("s", B3));
    assert Candidate(o, "y", THREE, "n2", B2) && Candidate(o, "y", THREE, "n3", B3);
    OrderFreeExactly(o, "y", THREE);
  }
}
