/** Replay positions of a session (session.go:1036-1083, 255-272): how the generation and turn counters come
back after a restart, although the replayed journal is a map and its iteration order is arbitrary. */
module Positions {
  import opened Wrappers

  type NodeId = string

  datatype Position = Position(interaction: NodeId, input: string, generation: int, turnsBefore: int)
  datatype Record =
    | Positioned(session: NodeId, position: Position)
    | Created(parent: NodeId, name: string, ordinal: int)
    | Other
  type Journal = map<NodeId, seq<Record>>

  /** The positions that one interaction recorded in one session. */
  datatype Owner = Owner(session: NodeId, interaction: NodeId)

  predicate Mine(o: Owner, r: Record) {
    r.Positioned? && r.session == o.session && r.position.interaction == o.interaction
  }

  predicate Active(o: Owner, input: string, r: Record) { Mine(o, r) && input != "" && r.position.input == input }

  function Positions(o: Owner, records: seq<Record>): set<Position> {
    if records == [] then {}
    else
      var last := records[|records| - 1];
      Positions(o, records[..|records| - 1]) + (if Mine(o, last) then {last.position} else {})
  }

  predicate Owns(o: Owner, records: seq<Record>) { exists r :: r in records && Mine(o, r) }

  predicate IsTurn(owned: set<NodeId>, r: Record) { r.Created? && r.parent in owned && r.name == "turn" }

  function Turns(owned: set<NodeId>, records: seq<Record>): set<int> {
    if records == [] then {}
    else
      var last := records[|records| - 1];
      Turns(owned, records[..|records| - 1]) + (if IsTurn(owned, last) then {last.ordinal} else {})
  }

  function Owned(o: Owner, j: Journal): set<NodeId> { set k | k in j && Owns(o, j[k]) }

  function Recorded(o: Owner, j: Journal): set<Position> { set k, p | k in j && p in Positions(o, j[k]) :: p }

  function RecordedTurns(o: Owner, j: Journal): set<int> { set k, t | k in j && t in Turns(Owned(o, j), j[k]) :: t }

  /** What a walk over the map has collected. */
  function Seen(o: Owner, j: Journal, visit: seq<NodeId>): set<Position>
    requires forall k | k in visit :: k in j
  {
    if visit == [] then {} else Seen(o, j, visit[..|visit| - 1]) + Positions(o, j[visit[|visit| - 1]])
  }

  function Owners(o: Owner, j: Journal, visit: seq<NodeId>): set<NodeId>
    requires forall k | k in visit :: k in j
  {
    if visit == [] then {}
    else
      var last := visit[|visit| - 1];
      Owners(o, j, visit[..|visit| - 1]) + (if Owns(o, j[last]) then {last} else {})
  }

  function SeenTurns(owned: set<NodeId>, j: Journal, visit: seq<NodeId>): set<int>
    requires forall k | k in visit :: k in j
  {
    if visit == [] then {} else SeenTurns(owned, j, visit[..|visit| - 1]) + Turns(owned, j[visit[|visit| - 1]])
  }

  /** `x` is the largest of `base` and the members of `s`. */
  ghost predicate Largest(x: int, base: int, s: set<int>) {
    base <= x && (forall y | y in s :: y <= x) && (x == base || x in s)
  }

  /** Both counters are the largest seen. */
  ghost predicate Tops(g: int, t: int, g0: int, t0: int, ps: set<Position>) {
    && g0 <= g && t0 <= t && (forall p | p in ps :: p.generation <= g && p.turnsBefore <= t)
    && (g == g0 || exists p :: p in ps && p.generation == g)
    && (t == t0 || exists p :: p in ps && p.turnsBefore == t)
  }

  function Max(x: int, y: int): int { if y > x then y else x }

  lemma TopsNext(g: int, t: int, g0: int, t0: int, ps: set<Position>, p: Position)
    requires Tops(g, t, g0, t0, ps)
    ensures Tops(Max(g, p.generation), Max(t, p.turnsBefore), g0, t0, ps + {p})
  {
    assert p in ps + {p};
  }

  lemma TopsThen(g: int, t: int, g1: int, t1: int, g0: int, t0: int, ps: set<Position>, qs: set<Position>)
    requires Tops(g1, t1, g0, t0, ps) && Tops(g, t, g1, t1, qs)
    ensures Tops(g, t, g0, t0, ps + qs)
  {
    if p :| p in qs && p.generation == g { assert p in ps + qs; }
    if p :| p in qs && p.turnsBefore == t { assert p in ps + qs; }
    if p :| p in ps && p.generation == g1 { assert p in ps + qs; }
    if p :| p in ps && p.turnsBefore == t1 { assert p in ps + qs; }
  }

  function LastActive(o: Owner, input: string, records: seq<Record>): Option<Position> {
    if records == [] then None
    else if Active(o, input, records[|records| - 1]) then Some(records[|records| - 1].position)
    else LastActive(o, input, records[..|records| - 1])
  }

  /** The active position that a walk over the map ends with. */
  function Found(o: Owner, input: string, j: Journal, visit: seq<NodeId>): Option<Position>
    requires forall k | k in visit :: k in j
  {
    if visit == [] then None
    else
      var last := LastActive(o, input, j[visit[|visit| - 1]]);
      if last.Some? then last else Found(o, input, j, visit[..|visit| - 1])
  }

  /** One order in which a map may be iterated. */
  ghost predicate Walks(visit: seq<NodeId>, j: Journal) {
    (forall i, k | 0 <= i < k < |visit| :: visit[i] != visit[k]) && (forall k :: k in visit <==> k in j)
  }

  class Session {
    const node: NodeId
    var generations: int
    var turns: int

    constructor (node: NodeId)
      ensures this.node == node && generations == 0 && turns == 0
    {
      this.node, generations, turns := node, 0, 0;
    }

    method ScanPositions(o: Owner, input: string, records: seq<Record>, was: Option<Position>)
      returns (owns: bool, active: Option<Position>)
      requires o.session == node
      modifies this`generations, this`turns
      ensures owns == Owns(o, records)
      ensures active == if LastActive(o, input, records).Some? then LastActive(o, input, records) else was
      ensures Tops(generations, turns, old(generations), old(turns), Positions(o, records))
    {
      owns, active := false, was;
      for i := 0 to |records|
        invariant owns == Owns(o, records[..i])
        invariant active == if LastActive(o, input, records[..i]).Some? then LastActive(o, input, records[..i]) else was
        invariant Tops(generations, turns, old(generations), old(turns), Positions(o, records[..i]))
      {
        var r := records[i];
        ScanNext(o, input, records[..i], r);
        assert records[..i] + [r] == records[..i + 1];
        if r.Positioned? && r.session == node && r.position.interaction == o.interaction {
          var p := r.position;
          owns := true;
          TopsNext(generations, turns, old(generations), old(turns), Positions(o, records[..i]), p);
          generations, turns := Max(generations, p.generation), Max(turns, p.turnsBefore);
          if input != "" && p.input == input { active := Some(p); }
        }
      }
      assert records[..|records|] == records;
    }

    method ScanTurns(owned: set<NodeId>, records: seq<Record>)
      modifies this`turns
      ensures Largest(turns, old(turns), Turns(owned, records))
    {
      for i := 0 to |records|
        invariant Largest(turns, old(turns), Turns(owned, records[..i]))
      {
        var r := records[i];
        assert records[..i + 1][..i] == records[..i];
        if r.Created? && r.parent in owned && r.name == "turn" { turns := Max(turns, r.ordinal); }
      }
      assert records[..|records|] == records;
    }

    method VisitNode(o: Owner, input: string, id: NodeId, records: seq<Record>, owned: set<NodeId>,
                     was: Option<Position>)
      returns (owned': set<NodeId>, active: Option<Position>)
      requires o.session == node
      modifies this`generations, this`turns
      ensures owned' == owned + (if Owns(o, records) then {id} else {})
      ensures active == if LastActive(o, input, records).Some? then LastActive(o, input, records) else was
      ensures Tops(generations, turns, old(generations), old(turns), Positions(o, records))
    {
      var owns;
      owns, active := ScanPositions(o, input, records, was);
      owned' := if owns then owned + {id} else owned;
    }

    method FirstPass(o: Owner, j: Journal, visit: seq<NodeId>, input: string)
      returns (owned: set<NodeId>, active: Option<Position>)
      requires Walks(visit, j) && o.session == node
      modifies this`generations, this`turns
      ensures owned == Owned(o, j) && active == Found(o, input, j, visit)
      ensures Tops(generations, turns, old(generations), old(turns), Recorded(o, j))
    {
      owned, active := {}, None;
      for i := 0 to |visit|
        invariant owned == Owners(o, j, visit[..i])
        invariant active == Found(o, input, j, visit[..i])
        invariant Tops(generations, turns, old(generations), old(turns), Seen(o, j, visit[..i]))
      {
        ghost var g, t := generations, turns;
        WalkNext(o, input, j, visit[..i], visit[i]);
        assert visit[..i] + [visit[i]] == visit[..i + 1];
        owned, active := VisitNode(o, input, visit[i], j[visit[i]], owned, active);
        TopsThen(generations, turns, g, t, old(generations), old(turns), Seen(o, j, visit[..i]), Positions(o, j[visit[i]]));
      }
      assert visit[..|visit|] == visit;
      SeenAll(o, j, visit);
      OwnersAll(o, j, visit);
    }

    method SecondPass(ghost o: Owner, j: Journal, again: seq<NodeId>, owned: set<NodeId>)
      requires Walks(again, j) && owned == Owned(o, j)
      modifies this`turns
      ensures Largest(turns, old(turns), RecordedTurns(o, j))
    {
      for i := 0 to |again|
        invariant Largest(turns, old(turns), SeenTurns(owned, j, again[..i]))
      {
        assert again[..i + 1][..i] == again[..i];
        ScanTurns(owned, j[again[i]]);
      }
      assert again[..|again|] == again;
      SeenAllTurns(o, j, again);
    }

    /** `visit` and `again` are the orders in which the two loops happen to see the map. */
    method RestoreInteraction(j: Journal, visit: seq<NodeId>, again: seq<NodeId>, interaction: NodeId, input: string)
      requires Walks(visit, j) && Walks(again, j)
      modifies this`generations, this`turns
      ensures Restored(Owner(node, interaction), j, Found(Owner(node, interaction), input, j, visit),
                       old(generations), old(turns), generations, turns)
    {
      var o := Owner(node, interaction);
      var owned, active := FirstPass(o, j, visit, input);
      ghost var first := turns;
      SecondPass(o, j, again, owned);
      assert Highest(generations, turns, old(generations), old(turns), first, o, j);
      if active.Some? {
        generations, turns := active.value.generation - 1, active.value.turnsBefore;
      }
    }

    /** The first step of a generation (session.go:258-262): its ordinal and the turns before it. */
    method BeginGeneration() returns (ordinal: int, turnsBefore: int)
      modifies this`generations
      ensures ordinal == old(generations) + 1 == generations && turnsBefore == turns
    {
      generations := generations + 1;
      ordinal, turnsBefore := generations, turns;
    }

    /** Re-entry of an interaction after a restart, up to the ordinals of its next generation and turn: those of the
    active position that the walk ends with, or larger ones than the interaction owns. */
    method Reenter(j: Journal, visit: seq<NodeId>, again: seq<NodeId>, interaction: NodeId, input: string)
      returns (ordinal: int, turnsBefore: int, turn: int)
      requires Walks(visit, j) && Walks(again, j)
      modifies this`generations, this`turns
      ensures var o, found := Owner(node, interaction), Found(Owner(node, interaction), input, j, visit);
              match found
              case Some(p) =>
                && p in Recorded(o, j) && input != "" && p.input == input
                && ordinal == p.generation && turnsBefore == p.turnsBefore && turn == p.turnsBefore + 1
              case None =>
                && (forall p | p in Recorded(o, j) ::
                      (input == "" || p.input != input) && p.generation < ordinal && p.turnsBefore < turn)
                && (forall t | t in RecordedTurns(o, j) :: t < turn)
    {
      RestoreInteraction(j, visit, again, interaction, input);
      FoundIsActive(Owner(node, interaction), input, j, visit);
      ordinal, turnsBefore := BeginGeneration();
      turns := turns + 1;
      turn := turns;
    }
  }

  /** The generation is the largest recorded; so is the turn, over positions first and turn nodes then. */
  ghost predicate Highest(g: int, t: int, g0: int, t0: int, first: int, o: Owner, j: Journal) {
    Tops(g, first, g0, t0, Recorded(o, j)) && Largest(t, first, RecordedTurns(o, j))
  }

  /** The counters after restoring: the active input's own position, or the largest of everything owned. */
  ghost predicate Restored(o: Owner, j: Journal, active: Option<Position>, g0: int, t0: int, g: int, t: int) {
    if active.Some? then g == active.value.generation - 1 && t == active.value.turnsBefore
    else exists first :: Highest(g, t, g0, t0, first, o, j)
  }

  /** At most one position for an interaction and its active input. */
  ghost predicate OnePosition(o: Owner, input: string, j: Journal) {
    forall p, q | p in Recorded(o, j) && q in Recorded(o, j) && input != "" &&
      p.input == input && q.input == input :: p == q
  }

  // ---- steps of the loops ----

  lemma ScanNext(o: Owner, input: string, records: seq<Record>, r: Record)
    ensures Positions(o, records + [r]) == Positions(o, records) + (if Mine(o, r) then {r.position} else {})
    ensures Owns(o, records + [r]) <==> Owns(o, records) || Mine(o, r)
    ensures LastActive(o, input, records + [r]) == if Active(o, input, r) then Some(r.position) else LastActive(o, input, records)
  {
    assert (records + [r])[..|records|] == records;
    assert r in records + [r];
  }

  lemma WalkNext(o: Owner, input: string, j: Journal, visit: seq<NodeId>, id: NodeId)
    requires id in j && forall k | k in visit :: k in j
    ensures Seen(o, j, visit + [id]) == Seen(o, j, visit) + Positions(o, j[id])
    ensures Owners(o, j, visit + [id]) == Owners(o, j, visit) + (if Owns(o, j[id]) then {id} else {})
    ensures Found(o, input, j, visit + [id]) ==
            if LastActive(o, input, j[id]).Some? then LastActive(o, input, j[id]) else Found(o, input, j, visit)
  {
    assert (visit + [id])[..|visit|] == visit;
  }

  lemma {:induction false} OwnersMembers(o: Owner, j: Journal, visit: seq<NodeId>, k: NodeId)
    requires forall k | k in visit :: k in j
    ensures k in Owners(o, j, visit) <==> k in visit && Owns(o, j[k])
  {
    if visit != [] {
      var init, last := visit[..|visit| - 1], visit[|visit| - 1];
      OwnersMembers(o, j, init, k);
      assert visit == init + [last];
    }
  }

  lemma OwnersAll(o: Owner, j: Journal, visit: seq<NodeId>)
    requires Walks(visit, j)
    ensures Owners(o, j, visit) == Owned(o, j)
  {
    forall k ensures k in Owners(o, j, visit) <==> k in Owned(o, j) { OwnersMembers(o, j, visit, k); }
  }

  lemma {:induction false} SeenMembers(o: Owner, j: Journal, visit: seq<NodeId>, p: Position)
    requires forall k | k in visit :: k in j
    ensures p in Seen(o, j, visit) <==> exists k :: k in visit && p in Positions(o, j[k])
  {
    if visit != [] {
      var init, last := visit[..|visit| - 1], visit[|visit| - 1];
      SeenMembers(o, j, init, p);
      assert visit == init + [last];
    }
  }

  lemma SeenAll(o: Owner, j: Journal, visit: seq<NodeId>)
    requires Walks(visit, j)
    ensures Seen(o, j, visit) == Recorded(o, j)
  {
    forall p ensures p in Seen(o, j, visit) <==> p in Recorded(o, j) { SeenMembers(o, j, visit, p); }
  }

  lemma {:induction false} SeenTurnMembers(owned: set<NodeId>, j: Journal, visit: seq<NodeId>, t: int)
    requires forall k | k in visit :: k in j
    ensures t in SeenTurns(owned, j, visit) <==> exists k :: k in visit && t in Turns(owned, j[k])
  {
    if visit != [] {
      var init, last := visit[..|visit| - 1], visit[|visit| - 1];
      SeenTurnMembers(owned, j, init, t);
      assert visit == init + [last];
    }
  }

  lemma SeenAllTurns(o: Owner, j: Journal, visit: seq<NodeId>)
    requires Walks(visit, j)
    ensures SeenTurns(Owned(o, j), j, visit) == RecordedTurns(o, j)
  {
    forall t ensures t in SeenTurns(Owned(o, j), j, visit) <==> t in RecordedTurns(o, j) {
      SeenTurnMembers(Owned(o, j), j, visit, t);
    }
  }

  lemma {:induction false} PositionsMembers(o: Owner, records: seq<Record>, p: Position)
    ensures p in Positions(o, records) <==> exists r :: r in records && Mine(o, r) && r.position == p
  {
    if records != [] {
      var init, last := records[..|records| - 1], records[|records| - 1];
      PositionsMembers(o, init, p);
      assert records == init + [last] && last in records;
    }
  }

  // ---- the order of the walk ----

  lemma {:induction false} LastActiveIsActive(o: Owner, input: string, records: seq<Record>)
    ensures LastActive(o, input, records).Some? ==> exists r :: r in records && Active(o, input, r) && LastActive(o, input, records) == Some(r.position)
    ensures LastActive(o, input, records).None? ==> forall r | r in records :: !Active(o, input, r)
  {
    if records != [] {
      var init, last := records[..|records| - 1], records[|records| - 1];
      LastActiveIsActive(o, input, init);
      assert records == init + [last];
      if Active(o, input, last) { assert last in records; }
    }
  }

  ghost predicate Candidate(o: Owner, input: string, j: Journal, k: NodeId, p: Position) {
    k in j && LastActive(o, input, j[k]) == Some(p)
  }

  lemma {:induction false} FoundIsCandidate(o: Owner, input: string, j: Journal, visit: seq<NodeId>)
    requires forall k | k in visit :: k in j
    ensures Found(o, input, j, visit).Some? ==> exists k :: k in visit && Candidate(o, input, j, k, Found(o, input, j, visit).value)
    ensures Found(o, input, j, visit).None? ==> forall k | k in visit :: LastActive(o, input, j[k]).None?
  {
    if visit != [] {
      var init, last := visit[..|visit| - 1], visit[|visit| - 1];
      FoundIsCandidate(o, input, j, init);
      assert visit == init + [last];
      if LastActive(o, input, j[last]).Some? { assert Candidate(o, input, j, last, LastActive(o, input, j[last]).value); }
    }
  }

  lemma FoundIsActive(o: Owner, input: string, j: Journal, visit: seq<NodeId>)
    requires Walks(visit, j)
    ensures var found := Found(o, input, j, visit);
            && (found.Some? ==> found.value in Recorded(o, j) && input != "" && found.value.input == input)
            && (found.None? ==> forall p | p in Recorded(o, j) :: input == "" || p.input != input)
  {
    var found := Found(o, input, j, visit);
    FoundIsCandidate(o, input, j, visit);
    if found.Some? {
      var k :| k in visit && Candidate(o, input, j, k, found.value);
      LastActiveIsActive(o, input, j[k]);
      PositionsMembers(o, j[k], found.value);
    } else {
      forall p | p in Recorded(o, j) ensures input == "" || p.input != input {
        var k :| k in j && p in Positions(o, j[k]);
        LastActiveIsActive(o, input, j[k]);
        PositionsMembers(o, j[k], p);
        var r :| r in j[k] && Mine(o, r) && r.position == p;
        assert !Active(o, input, r);
      }
    }
  }

  // ---- what the counters are made of ----

  lemma {:induction false} TurnsMembers(owned: set<NodeId>, records: seq<Record>, t: int)
    ensures t in Turns(owned, records) <==>
              exists i, parent :: 0 <= i < |records| && parent in owned && records[i] == Created(parent, "turn", t)
  {
    if records != [] {
      var n := |records| - 1;
      var init := records[..n];
      TurnsMembers(owned, init, t);
      if i, parent :| 0 <= i < |init| && parent in owned && init[i] == Created(parent, "turn", t) {
        assert records[i] == Created(parent, "turn", t);
      }
      if i, parent :| 0 <= i < |records| && parent in owned && records[i] == Created(parent, "turn", t) && i < n {
        assert init[i] == Created(parent, "turn", t);
      }
      if IsTurn(owned, records[n]) && records[n].ordinal == t { assert records[n] == Created(records[n].parent, "turn", t); }
    }
  }

  /** The positions that count are those of this session and this interaction, at whatever node; the turns that count are
  the turn nodes below a node that holds such a position. */
  lemma RecordedExactly(o: Owner, j: Journal, p: Position, t: int)
    ensures p in Recorded(o, j) <==>
              p.interaction == o.interaction && exists k :: k in j && Positioned(o.session, p) in j[k]
    ensures t in RecordedTurns(o, j) <==>
              exists k, i, parent :: k in j && 0 <= i < |j[k]| && j[k][i] == Created(parent, "turn", t) && Holder(o, j, parent)
  {
    forall k | k in j ensures p in Positions(o, j[k]) <==> p.interaction == o.interaction && Positioned(o.session, p) in j[k] {
      PositionsMembers(o, j[k], p);
      if p.interaction == o.interaction && Positioned(o.session, p) in j[k] { assert Mine(o, Positioned(o.session, p)); }
    }
    forall parent ensures parent in Owned(o, j) <==> Holder(o, j, parent) { OwnedHolds(o, j, parent); }
    forall k | k in j ensures t in Turns(Owned(o, j), j[k]) <==>
      exists i, parent :: 0 <= i < |j[k]| && parent in Owned(o, j) && j[k][i] == Created(parent, "turn", t)
    {
      TurnsMembers(Owned(o, j), j[k], t);
    }
  }

  ghost predicate Holder(o: Owner, j: Journal, k: NodeId) {
    k in j && exists p :: Positioned(o.session, p) in j[k] && p.interaction == o.interaction
  }

  lemma OwnedHolds(o: Owner, j: Journal, k: NodeId)
    ensures k in Owned(o, j) <==> Holder(o, j, k)
  {
    if k in j {
      if r :| r in j[k] && Mine(o, r) { assert r == Positioned(o.session, r.position); }
      if p :| Positioned(o.session, p) in j[k] && p.interaction == o.interaction { assert Mine(o, Positioned(o.session, p)); }
    }
  }

  /** The position of the active input that stands last at a node. */
  ghost predicate LastAt(o: Owner, input: string, records: seq<Record>, p: Position) {
    exists i :: 0 <= i < |records| && records[i] == Positioned(o.session, p) && p.interaction == o.interaction && p.input == input
      && forall k | i < k < |records| :: !Active(o, input, records[k])
  }

  lemma {:induction false} LastActiveExactly(o: Owner, input: string, records: seq<Record>, p: Position)
    requires input != ""
    ensures LastActive(o, input, records) == Some(p) <==> LastAt(o, input, records, p)
  {
    if records != [] {
      var n := |records| - 1;
      var init, last := records[..n], records[n];
      LastActiveExactly(o, input, init, p);
      if LastAt(o, input, records, p) {
        var i :| 0 <= i < |records| && records[i] == Positioned(o.session, p) && p.interaction == o.interaction && p.input == input
                 && forall k | i < k < |records| :: !Active(o, input, records[k]);
        if i < n { assert init[i] == records[i] && LastAt(o, input, init, p); } else { assert Active(o, input, last); }
      }
      if LastAt(o, input, init, p) && !Active(o, input, last) {
        var i :| 0 <= i < |init| && init[i] == Positioned(o.session, p) && p.interaction == o.interaction && p.input == input
                 && forall k | i < k < |init| :: !Active(o, input, init[k]);
        assert records[i] == init[i];
        assert forall k | i < k < |records| :: !Active(o, input, records[k]) by {
          forall k | i < k < |records| ensures !Active(o, input, records[k]) { if k < n { assert init[k] == records[k]; } }
        }
      }
      if Active(o, input, last) && last.position == p { assert records[n] == Positioned(o.session, p); }
    }
  }

  /** A walk ends with the last position of the active input at the last node that has one. */
  lemma {:induction false} FoundExactly(o: Owner, input: string, j: Journal, visit: seq<NodeId>, p: Position)
    requires input != "" && forall k | k in visit :: k in j
    ensures Found(o, input, j, visit) == Some(p) <==>
              exists i :: 0 <= i < |visit| && LastAt(o, input, j[visit[i]], p)
                && forall k, q | i < k < |visit| :: !LastAt(o, input, j[visit[k]], q)
  {
    if visit != [] {
      var n := |visit| - 1;
      var init, last := visit[..n], visit[n];
      FoundExactly(o, input, j, init, p);
      forall q ensures LastActive(o, input, j[last]) == Some(q) <==> LastAt(o, input, j[last], q) {
        LastActiveExactly(o, input, j[last], q);
      }
      if Found(o, input, j, visit) == Some(p) {
        if LastActive(o, input, j[last]).Some? {
          assert visit[n] == last && LastAt(o, input, j[visit[n]], p);
        } else {
          var i :| 0 <= i < |init| && LastAt(o, input, j[init[i]], p) && forall k, q | i < k < |init| :: !LastAt(o, input, j[init[k]], q);
          assert visit[i] == init[i];
          forall k, q | i < k < |visit| ensures !LastAt(o, input, j[visit[k]], q) { if k < n { assert visit[k] == init[k]; } }
        }
      }
      if i :| 0 <= i < |visit| && LastAt(o, input, j[visit[i]], p) && forall k, q | i < k < |visit| :: !LastAt(o, input, j[visit[k]], q) {
        if i < n {
          assert init[i] == visit[i] && forall k | i < k < |init| :: init[k] == visit[k];
          assert forall q :: !LastAt(o, input, j[visit[n]], q);
        }
      }
    }
  }

  /** Does every walk end with the same active position? */
  ghost predicate OrderFree(o: Owner, input: string, j: Journal) {
    forall v, w | Walks(v, j) && Walks(w, j) :: Found(o, input, j, v) == Found(o, input, j, w)
  }

  lemma Enumerate(keys: set<NodeId>) returns (s: seq<NodeId>)
    ensures (forall i, k | 0 <= i < k < |s| :: s[i] != s[k]) && (forall k :: k in s <==> k in keys)
    decreases keys
  {
    if keys == {} {
      s := [];
    } else {
      var k :| k in keys;
      var rest := Enumerate(keys - {k});
      s := rest + [k];
    }
  }

  /** Some walk ends at any given node. */
  lemma WalkEndingAt(j: Journal, k: NodeId) returns (visit: seq<NodeId>)
    requires k in j
    ensures Walks(visit, j) && visit != [] && visit[|visit| - 1] == k
  {
    var rest := Enumerate(j.Keys - {k});
    visit := rest + [k];
  }

  /** The iteration order cannot matter exactly when all nodes that hold a position of the active input agree. */
  lemma OrderFreeExactly(o: Owner, input: string, j: Journal)
    ensures OrderFree(o, input, j) <==>
            forall k, l, p, q | Candidate(o, input, j, k, p) && Candidate(o, input, j, l, q) :: p == q
  {
    if OrderFree(o, input, j) {
      forall k, l, p, q | Candidate(o, input, j, k, p) && Candidate(o, input, j, l, q) ensures p == q {
        var v := WalkEndingAt(j, k);
        var w := WalkEndingAt(j, l);
        assert Found(o, input, j, v) == Some(p) && Found(o, input, j, w) == Some(q);
      }
    }
    if forall k, l, p, q | Candidate(o, input, j, k, p) && Candidate(o, input, j, l, q) :: p == q {
      forall v, w | Walks(v, j) && Walks(w, j) ensures Found(o, input, j, v) == Found(o, input, j, w) {
        FoundIsCandidate(o, input, j, v);
        FoundIsCandidate(o, input, j, w);
      }
    }
  }

  lemma OneIsDetermined(o: Owner, input: string, j: Journal, v: seq<NodeId>, w: seq<NodeId>,
                        g0: int, t0: int, g: int, t: int, g': int, t': int)
    requires Walks(v, j) && Walks(w, j) && OnePosition(o, input, j)
    requires Restored(o, j, Found(o, input, j, v), g0, t0, g, t)
    requires Restored(o, j, Found(o, input, j, w), g0, t0, g', t')
    ensures g == g' && t == t'
  {
    FoundIsActive(o, input, j, v);
    FoundIsActive(o, input, j, w);
  }
}
