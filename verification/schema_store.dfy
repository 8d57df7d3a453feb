/** The walk of claude/claude.go as it really runs: Go maps are shared and written in place.

Every JSON object lives at an address of a store, and a value holds the address. completionSchema takes
its shallow copy of $defs before the walk, so the copy reads rewritten only because both maps share
their members. */
module SchemaStore {
  import opened Wrappers
  import opened JsonPointer
  import opened Schema

  type Ref = nat
  datatype Value = Leaf(json: Json) | List(items: seq<Value>) | Ptr(ref: Ref)
  type Heap = map<Ref, map<string, Value>>

  /** `v` holds exactly the tree `t`. */
  ghost predicate Holds(h: Heap, v: Value, t: Json)
    decreases t
  {
    match t
    case Obj(fields) =>
      v.Ptr? && v.ref in h && h[v.ref].Keys == fields.Keys &&
      forall k | k in fields :: Holds(h, h[v.ref][k], fields[k])
    case Arr(items) =>
      v.List? && |v.items| == |items| && forall i | 0 <= i < |items| :: Holds(h, v.items[i], items[i])
    case _ => v == Leaf(t)
  }

  /** The addresses of the tree. */
  ghost function Foot(h: Heap, v: Value, t: Json): set<Ref>
    requires Holds(h, v, t)
    decreases t
  {
    match t
    case Obj(fields) => {v.ref} + set k, r | k in fields && r in Foot(h, h[v.ref][k], fields[k]) :: r
    case Arr(items) => set i, r | 0 <= i < |items| && r in Foot(h, v.items[i], items[i]) :: r
    case _ => {}
  }

  /** No address occurs twice: json.Unmarshal builds a tree. */
  ghost predicate Sep(h: Heap, v: Value, t: Json)
    requires Holds(h, v, t)
    decreases t
  {
    match t
    case Obj(fields) =>
      && (forall k | k in fields :: v.ref !in Foot(h, h[v.ref][k], fields[k]) && Sep(h, h[v.ref][k], fields[k]))
      && (forall k, l | k in fields && l in fields && k != l ::
            Foot(h, h[v.ref][k], fields[k]) !! Foot(h, h[v.ref][l], fields[l]))
    case Arr(items) =>
      && (forall i | 0 <= i < |items| :: Sep(h, v.items[i], items[i]))
      && (forall i, j | 0 <= i < j < |items| ::
            Foot(h, v.items[i], items[i]) !! Foot(h, v.items[j], items[j]))
    case _ => true
  }

  ghost predicate Tree(h: Heap, v: Value, t: Json, foot: set<Ref>) {
    Holds(h, v, t) && Sep(h, v, t) && Foot(h, v, t) == foot
  }

  ghost predicate Agree(h: Heap, h': Heap, on: set<Ref>) {
    forall r | r in on && r in h :: r in h' && h'[r] == h[r]
  }

  lemma {:induction false} FootInHeap(h: Heap, v: Value, t: Json)
    requires Holds(h, v, t)
    ensures Foot(h, v, t) <= h.Keys
    decreases t
  {
    match t
    case Obj(fields) => forall k | k in fields { FootInHeap(h, h[v.ref][k], fields[k]); }
    case Arr(items) => forall i | 0 <= i < |items| { FootInHeap(h, v.items[i], items[i]); }
    case _ =>
  }

  lemma {:induction false} Frame(h: Heap, h': Heap, v: Value, t: Json)
    requires Holds(h, v, t) && Agree(h, h', Foot(h, v, t))
    ensures Holds(h', v, t) && Foot(h', v, t) == Foot(h, v, t)
    ensures Sep(h, v, t) ==> Sep(h', v, t)
    decreases t
  {
    match t
    case Obj(fields) =>
      assert v.ref in Foot(h, v, t);
      forall k | k in fields
        ensures Holds(h', h[v.ref][k], fields[k])
        ensures Foot(h', h[v.ref][k], fields[k]) == Foot(h, h[v.ref][k], fields[k])
        ensures Sep(h, h[v.ref][k], fields[k]) ==> Sep(h', h[v.ref][k], fields[k])
      {
        assert Foot(h, h[v.ref][k], fields[k]) <= Foot(h, v, t);
        Frame(h, h', h[v.ref][k], fields[k]);
      }
    case Arr(items) =>
      forall i | 0 <= i < |items|
        ensures Holds(h', v.items[i], items[i])
        ensures Foot(h', v.items[i], items[i]) == Foot(h, v.items[i], items[i])
        ensures Sep(h, v.items[i], items[i]) ==> Sep(h', v.items[i], items[i])
      {
        assert Foot(h, v.items[i], items[i]) <= Foot(h, v, t);
        Frame(h, h', v.items[i], items[i]);
      }
    case _ =>
  }

  /** An object whose members are trees over the same addresses as before. */
  lemma Assemble(h: Heap, h': Heap, ref: Ref, fields: map<string, Json>, fields': map<string, Json>)
    requires Holds(h, Ptr(ref), Obj(fields)) && Sep(h, Ptr(ref), Obj(fields))
    requires ref in h' && h'[ref].Keys == fields'.Keys == fields.Keys
    requires forall k | k in fields :: Tree(h', h'[ref][k], fields'[k], Foot(h, h[ref][k], fields[k]))
    ensures Tree(h', Ptr(ref), Obj(fields'), Foot(h, Ptr(ref), Obj(fields)))
  {
    AssembledFoot(h, h', ref, fields, fields');
    forall k, l | k in fields && l in fields && k != l
      ensures Foot(h', h'[ref][k], fields'[k]) !! Foot(h', h'[ref][l], fields'[l])
    {
      assert Foot(h, h[ref][k], fields[k]) !! Foot(h, h[ref][l], fields[l]);
    }
  }

  lemma AssembledFoot(h: Heap, h': Heap, ref: Ref, fields: map<string, Json>, fields': map<string, Json>)
    requires Holds(h, Ptr(ref), Obj(fields))
    requires ref in h' && h'[ref].Keys == fields'.Keys == fields.Keys
    requires forall k | k in fields :: Tree(h', h'[ref][k], fields'[k], Foot(h, h[ref][k], fields[k]))
    ensures Holds(h', Ptr(ref), Obj(fields'))
    ensures Foot(h', Ptr(ref), Obj(fields')) == Foot(h, Ptr(ref), Obj(fields))
  {
    var a := set k, r | k in fields && r in Foot(h, h[ref][k], fields[k]) :: r;
    var b := set k, r | k in fields' && r in Foot(h', h'[ref][k], fields'[k]) :: r;
    assert a == b;
  }

  /** Changing one member's subtree inside its own addresses changes just that member of the object. */
  lemma ReplaceMember(h: Heap, h': Heap, ref: Ref, fields: map<string, Json>, key: string, item: Json)
    requires Holds(h, Ptr(ref), Obj(fields)) && Sep(h, Ptr(ref), Obj(fields)) && key in fields
    requires ref in h' && h'[ref] == h[ref]
    requires Tree(h', h[ref][key], item, Foot(h, h[ref][key], fields[key]))
    requires Agree(h, h', h.Keys - Foot(h, h[ref][key], fields[key]))
    ensures Tree(h', Ptr(ref), Obj(fields[key := item]), Foot(h, Ptr(ref), Obj(fields)))
  {
    forall k | k in fields
      ensures Tree(h', h'[ref][k], fields[key := item][k], Foot(h, h[ref][k], fields[k]))
    {
      if k != key {
        assert Foot(h, h[ref][k], fields[k]) !! Foot(h, h[ref][key], fields[key]);
        FootInHeap(h, h[ref][k], fields[k]);
        Frame(h, h', h[ref][k], fields[k]);
      }
    }
    Assemble(h, h', ref, fields, fields[key := item]);
  }

  lemma ReplaceItem(h: Heap, h': Heap, v: Value, items: seq<Json>, i: nat, item: Json)
    requires i < |items| && Holds(h, v, Arr(items)) && Sep(h, v, Arr(items))
    requires var foot := Foot(h, v.items[i], items[i]);
             Tree(h', v.items[i], item, foot) && Agree(h, h', h.Keys - foot)
    ensures Tree(h', v, Arr(items[i := item]), Foot(h, v, Arr(items)))
  {
    var items' := items[i := item];
    forall j | 0 <= j < |items|
      ensures Holds(h', v.items[j], items'[j])
      ensures Foot(h', v.items[j], items'[j]) == Foot(h, v.items[j], items[j])
      ensures Sep(h', v.items[j], items'[j])
    {
      if j != i {
        assert Foot(h, v.items[j], items[j]) !! Foot(h, v.items[i], items[i]);
        FootInHeap(h, v.items[j], items[j]);
        Frame(h, h', v.items[j], items[j]);
      }
    }
  }

  /** Storing a string over a string member. */
  lemma WriteString(h: Heap, ref: Ref, fields: map<string, Json>, key: string, text: string)
    requires Holds(h, Ptr(ref), Obj(fields)) && Sep(h, Ptr(ref), Obj(fields))
    requires key in fields && fields[key].Str?
    ensures Tree(h[ref := h[ref][key := Leaf(Str(text))]], Ptr(ref), Obj(fields[key := Str(text)]),
                 Foot(h, Ptr(ref), Obj(fields)))
  {
    var h' := h[ref := h[ref][key := Leaf(Str(text))]];
    forall k | k in fields
      ensures Tree(h', h'[ref][k], fields[key := Str(text)][k], Foot(h, h[ref][k], fields[k]))
    {
      if k != key { Frame(h, h', h[ref][k], fields[k]); }
    }
    Assemble(h, h', ref, fields, fields[key := Str(text)]);
  }

  /** The name maps under an object keep their own entries; only what is below those changes. */
  ghost predicate NamedKept(h: Heap, h': Heap, ref: Ref) {
    ref in h && ref in h' &&
    forall k | k in h[ref] && k in NAME_MAPS ::
      k in h'[ref] && h'[ref][k] == h[ref][k] &&
      (h[ref][k].Ptr? && h[ref][k].ref in h ==> h[ref][k].ref in h' && h'[h[ref][k].ref] == h[h[ref][k].ref])
  }

  /** A walk below one member leaves the object's own entries, and its other members' entries, alone. */
  lemma MemberWalked(h: Heap, h': Heap, ref: Ref, fields: map<string, Json>, key: string, named: bool)
    requires Holds(h, Ptr(ref), Obj(fields)) && Sep(h, Ptr(ref), Obj(fields)) && key in fields
    requires h'.Keys == h.Keys && Agree(h, h', h.Keys - Foot(h, h[ref][key], fields[key]))
    requires if named then h[ref][key].Ptr? ==> h'[h[ref][key].ref] == h[h[ref][key].ref] else key !in NAME_MAPS
    ensures h'[ref] == h[ref] && NamedKept(h, h', ref)
  {
    forall k | k in h[ref] && k in NAME_MAPS && h[ref][k].Ptr? && h[ref][k].ref in h && k != key
      ensures h'[h[ref][k].ref] == h[h[ref][k].ref]
    {
      assert k in fields && Holds(h, h[ref][k], fields[k]);
      assert h[ref][k].ref in Foot(h, h[ref][k], fields[k]);
      assert Foot(h, h[ref][k], fields[k]) !! Foot(h, h[ref][key], fields[key]);
    }
  }

  lemma StringWritten(h: Heap, ref: Ref, fields: map<string, Json>, key: string, text: string)
    requires Holds(h, Ptr(ref), Obj(fields)) && Sep(h, Ptr(ref), Obj(fields)) && key in fields
    requires key !in NAME_MAPS
    ensures NamedKept(h, h[ref := h[ref][key := Leaf(Str(text))]], ref)
  {
    forall k | k in h[ref] && k in NAME_MAPS && h[ref][k].Ptr? && h[ref][k].ref in h
      ensures h[ref][k].ref != ref
    {
      assert k in fields && Holds(h, h[ref][k], fields[k]);
      assert h[ref][k].ref in Foot(h, h[ref][k], fields[k]);
    }
  }

  lemma KeptTransitive(h0: Heap, h1: Heap, h2: Heap, ref: Ref)
    requires NamedKept(h0, h1, ref) && NamedKept(h1, h2, ref)
    ensures NamedKept(h0, h2, ref)
  {
  }

  /** What one walk may change: members inside the subtree, never an address. */
  ghost predicate Within(h: Heap, h': Heap, foot: set<Ref>) {
    h'.Keys == h.Keys && Agree(h, h', h.Keys - foot)
  }

  class JsonStore {
    var heap: Heap
    var next: Ref

    ghost predicate Valid()
      reads this
    {
      forall r | r in heap :: r < next
    }

    /** claude/claude.go:518-550. */
    method RewriteLocalRefs(v: Value, name: string, nestedResource: bool, ghost t: Json)
      requires Holds(heap, v, t) && Sep(heap, v, t)
      modifies `heap
      ensures Tree(heap, v, Rewrite(t, SchemaNode(nestedResource), name), old(Foot(heap, v, t)))
      ensures Within(old(heap), heap, old(Foot(heap, v, t)))
      ensures v.Ptr? ==> NamedKept(old(heap), heap, v.ref)
      decreases t, 1
    {
      match v
      case Leaf(_) =>
      case List(_) => RewriteItems(v, name, nestedResource, t);
      case Ptr(ref) =>
        ghost var h0, foot, fields := heap, Foot(heap, v, t), t.fields;
        var nested := nestedResource || "$id" in heap[ref];
        var todo := heap[ref].Keys;
        PartialStart(fields, nested, false, name);
        while todo != {}
          invariant todo <= fields.Keys
          invariant Tree(heap, v, Obj(Partial(fields, todo, nested, false, name)), foot)
          invariant Within(h0, heap, foot) && NamedKept(h0, heap, ref)
          decreases todo
        {
          var key :| key in todo;
          ghost var h1 := heap;
          RewriteMember(ref, key, name, nested, Partial(fields, todo, nested, false, name));
          KeptTransitive(h0, h1, heap, ref);
          PartialStep(fields, todo, nested, false, name, key);
          todo := todo - {key};
        }
        PartialEnd(fields, nestedResource, name);
    }

    method RewriteItems(v: Value, name: string, nestedResource: bool, ghost t: Json)
      requires v.List? && Holds(heap, v, t) && Sep(heap, v, t)
      modifies `heap
      ensures Tree(heap, v, Rewrite(t, SchemaNode(nestedResource), name), old(Foot(heap, v, t)))
      ensures Within(old(heap), heap, old(Foot(heap, v, t)))
      decreases t, 0
    {
      ghost var h0, foot, now := heap, Foot(heap, v, t), t.items;
      var i := 0;
      while i < |v.items|
        invariant 0 <= i <= |v.items| == |now| == |t.items|
        invariant Tree(heap, v, Arr(now), foot)
        invariant Within(h0, heap, foot)
        invariant forall j | 0 <= j < i :: now[j] == Rewrite(t.items[j], SchemaNode(nestedResource), name)
        invariant forall j | i <= j < |now| :: now[j] == t.items[j]
      {
        ghost var h1 := heap;
        assert Foot(h1, v.items[i], now[i]) <= foot;
        RewriteLocalRefs(v.items[i], name, nestedResource, now[i]);
        ReplaceItem(h1, heap, v, now, i, Rewrite(now[i], SchemaNode(nestedResource), name));
        now := now[i := Rewrite(now[i], SchemaNode(nestedResource), name)];
        i := i + 1;
      }
      assert now == Rewrite(t, SchemaNode(nestedResource), name).items;
    }

    /** One turn of the loop over an object's members. */
    method RewriteMember(ref: Ref, key: string, name: string, nested: bool, ghost fields: map<string, Json>)
      requires Holds(heap, Ptr(ref), Obj(fields)) && Sep(heap, Ptr(ref), Obj(fields)) && key in fields
      modifies `heap
      ensures Tree(heap, Ptr(ref), Obj(fields[key := Rewrite(fields[key], MemberMode(nested, key), name)]),
                   old(Foot(heap, Ptr(ref), Obj(fields))))
      ensures Within(old(heap), heap, old(Foot(heap, Ptr(ref), Obj(fields))))
      ensures NamedKept(old(heap), heap, ref)
      decreases fields[key], 3
    {
      ghost var h1 := heap;
      var item := heap[ref][key];
      assert Holds(h1, item, fields[key]) && Sep(h1, item, fields[key]);
      assert Foot(h1, item, fields[key]) <= Foot(h1, Ptr(ref), Obj(fields));
      if key in NAME_MAPS {
        RewriteSchemaNameMap(item, name, nested, fields[key]);
        MemberWalked(h1, heap, ref, fields, key, true);
        ReplaceMember(h1, heap, ref, fields, key, Rewrite(fields[key], NameMap(nested), name));
      } else if key in INSTANCES {
        UntouchedIsIdentity(fields[key], Data, name);
        assert fields[key := fields[key]] == fields;
      } else if !nested && key in REFERENCES && item.Leaf? && item.json.Str? {
        if Redirects(item.json.text) {
          heap := heap[ref := heap[ref][key := Leaf(Str("#/$defs/" + name + item.json.text[1..]))]];
          WriteString(h1, ref, fields, key, RewriteRef(item.json.text, name));
          StringWritten(h1, ref, fields, key, RewriteRef(item.json.text, name));
        } else {
          assert fields[key := fields[key]] == fields;
        }
      } else {
        RewriteLocalRefs(item, name, nested, fields[key]);
        if !fields[key].Str? && !nested { RefNodeIsSchemaNode(fields[key], name); }
        MemberWalked(h1, heap, ref, fields, key, false);
        ReplaceMember(h1, heap, ref, fields, key, Rewrite(fields[key], SchemaNode(nested), name));
      }
    }

    /** claude/claude.go:555-563. */
    method RewriteSchemaNameMap(v: Value, name: string, nestedResource: bool, ghost t: Json)
      requires Holds(heap, v, t) && Sep(heap, v, t)
      modifies `heap
      ensures Tree(heap, v, Rewrite(t, NameMap(nestedResource), name), old(Foot(heap, v, t)))
      ensures Within(old(heap), heap, old(Foot(heap, v, t)))
      ensures v.Ptr? ==> heap[v.ref] == old(heap[v.ref])
      decreases t, 2
    {
      if !v.Ptr? {
        NameMapNeedsObject(t, nestedResource, name);
        return;
      }
      ghost var h0, foot, fields := heap, Foot(heap, v, t), t.fields;
      var todo := heap[v.ref].Keys;
      PartialStart(fields, nestedResource, true, name);
      while todo != {}
        invariant todo <= fields.Keys
        invariant Tree(heap, v, Obj(Partial(fields, todo, nestedResource, true, name)), foot)
        invariant Within(h0, heap, foot) && heap[v.ref] == h0[v.ref]
        decreases todo
      {
        var key :| key in todo;
        RewriteNamed(v.ref, key, name, nestedResource, Partial(fields, todo, nestedResource, true, name));
        PartialStep(fields, todo, nestedResource, true, name, key);
        todo := todo - {key};
      }
      NamesEnd(fields, nestedResource, name);
    }

    method RewriteNamed(ref: Ref, key: string, name: string, nestedResource: bool, ghost fields: map<string, Json>)
      requires Holds(heap, Ptr(ref), Obj(fields)) && Sep(heap, Ptr(ref), Obj(fields)) && key in fields
      modifies `heap
      ensures Tree(heap, Ptr(ref), Obj(fields[key := Rewrite(fields[key], SchemaNode(nestedResource), name)]),
                   old(Foot(heap, Ptr(ref), Obj(fields))))
      ensures Within(old(heap), heap, old(Foot(heap, Ptr(ref), Obj(fields)))) && heap[ref] == old(heap[ref])
      decreases fields[key], 3
    {
      ghost var h1 := heap;
      assert Foot(h1, h1[ref][key], fields[key]) <= Foot(h1, Ptr(ref), Obj(fields));
      RewriteLocalRefs(heap[ref][key], name, nestedResource, fields[key]);
      ReplaceMember(h1, heap, ref, fields, key, Rewrite(fields[key], SchemaNode(nestedResource), name));
    }

    /** claude/claude.go:463-523 up to the envelope's literal: the private name, the hoisted $defs, the
    hoisted legacy definitions and the dialect. */
    method CompletionSchema(caller: Value, ghost t: Json)
      returns (name: string, defs: Ref, legacy: Option<Ref>, dialect: Option<Value>)
      requires Valid() && Holds(heap, caller, t) && Sep(heap, caller, t)
      modifies this
      ensures FreshFor(name, Members(t, "$defs").Keys)
      ensures ComposedIn(heap, t, name, defs, legacy, dialect)
    {
      hide ComposedIn, Hoisted, Sep, Rewrite, Walk;
      legacy, dialect := None, None;
      defs := CopyDefs(caller, t);
      name := FreshName(heap[defs].Keys);
      ghost var h0 := heap;
      FootInHeap(h0, caller, t);
      if caller.Ptr? {
        var walk := WalkRoot(caller.ref, name, defs, t);
        ghost var h1, v := heap, Walk(t, name);
        DefinitionsApart(h1, caller.ref, v.fields);
        legacy, dialect := Rearrange(caller.ref, name, defs, walk);
        Rearranged(h1, heap, caller.ref, v.fields, name, Deleted(walk, IsObject(v, "definitions")), defs, legacy, dialect);
        ComposedHolds(heap, t, v, name, defs, legacy, dialect);
      } else {
        heap := heap[defs := heap[defs][name := caller]];
        Frame(h0, heap, caller, t);
        PlainHolds(heap, caller, t, name, defs);
      }
    }

    method WalkRoot(ref: Ref, name: string, defs: Ref, ghost t: Json) returns (walk: bool)
      requires Valid() && Holds(heap, Ptr(ref), t) && Sep(heap, Ptr(ref), t)
      requires defs in heap && defs !in Foot(heap, Ptr(ref), t)
      modifies `heap
      ensures Valid() && walk == Walked(t)
      ensures Tree(heap, Ptr(ref), Walk(t, name), old(Foot(heap, Ptr(ref), t)))
      ensures defs in heap && heap[defs] == old(heap[defs])
      ensures Entries(heap, ref, "$defs") == old(Entries(heap, ref, "$defs"))
    {
      ghost var h0 := heap;
      walk := "$id" !in heap[ref];
      if walk {
        RewriteLocalRefs(Ptr(ref), name, false, t);
        EntriesKept(h0, heap, ref, t.fields);
      }
    }

    /** The shallow copy of $defs, taken before the walk. */
    method CopyDefs(caller: Value, ghost t: Json) returns (defs: Ref)
      requires Valid() && Holds(heap, caller, t) && Sep(heap, caller, t)
      modifies this
      ensures Valid() && defs in heap && defs !in old(heap)
      ensures Tree(heap, caller, t, old(Foot(heap, caller, t))) && defs !in Foot(heap, caller, t)
      ensures heap[defs].Keys == Members(t, "$defs").Keys
      ensures heap[defs] == if caller.Ptr? then Entries(heap, caller.ref, "$defs") else map[]
    {
      hide Holds, Foot, Sep;
      ghost var h0 := heap;
      FootInHeap(heap, caller, t);
      RootIsObj(heap, caller, t);
      if caller.Ptr? { DefsEntries(heap, caller.ref, t.fields); }
      defs := FreshDefs(caller);
      Frame(h0, heap, caller, t);
      if caller.Ptr? { DefsEntries(heap, caller.ref, t.fields); }
    }

    /** A new object with the entries of the definitions. */
    method FreshDefs(caller: Value) returns (defs: Ref)
      requires Valid()
      requires caller.Ptr? ==> caller.ref in heap
      requires caller.Ptr? && "$defs" in heap[caller.ref] && heap[caller.ref]["$defs"].Ptr? ==> heap[caller.ref]["$defs"].ref in heap
      modifies this
      ensures Valid() && defs !in old(heap)
      ensures heap == old(heap)[defs := if caller.Ptr? then Entries(old(heap), caller.ref, "$defs") else map[]]
    {
      defs := next;
      next := next + 1;
      var existing: map<string, Value> := map[];
      if caller.Ptr? && "$defs" in heap[caller.ref] && heap[caller.ref]["$defs"].Ptr? {
        existing := heap[heap[caller.ref]["$defs"].ref];
      }
      heap := heap[defs := existing];
    }

    /** The insertions and deletions of claude/claude.go:479-521. */
    method Rearrange(ref: Ref, name: string, defs: Ref, walk: bool) returns (legacy: Option<Ref>, dialect: Option<Value>)
      requires Valid() && ref in heap && defs in heap && defs != ref
      requires "definitions" in heap[ref] && heap[ref]["definitions"].Ptr? ==>
                 heap[ref]["definitions"].ref in heap && heap[ref]["definitions"].ref !in {ref, defs}
      modifies this
      ensures legacy.Some? <==> walk && "definitions" in old(heap[ref]) && old(heap[ref]["definitions"]).Ptr?
      ensures legacy.Some? ==> legacy.value in heap && legacy.value !in old(heap) &&
                               heap[legacy.value] == Entries(old(heap), ref, "definitions")
      ensures dialect == if "$schema" in old(heap[ref]) then Some(old(heap[ref]["$schema"])) else None
      ensures ref in heap && heap[ref] ==
                old(heap[ref]) - Deleted(walk, "definitions" in old(heap[ref]) && old(heap[ref]["definitions"]).Ptr?)
      ensures defs in heap && heap[defs] == old(heap[defs])[name := Ptr(ref)]
      ensures Agree(old(heap), heap, old(heap).Keys - {ref, defs})
    {
      legacy := None;
      if walk { legacy := TakeDefinitions(ref); }
      heap := heap[defs := heap[defs][name := Ptr(ref)]];
      dialect := TakeDialect(ref);
    }

    /** Both kinds of definitions leave the root, the older ones into a new object. */
    method TakeDefinitions(ref: Ref) returns (legacy: Option<Ref>)
      requires Valid() && ref in heap
      requires "definitions" in heap[ref] && heap[ref]["definitions"].Ptr? ==>
                 heap[ref]["definitions"].ref in heap && heap[ref]["definitions"].ref != ref
      modifies this
      ensures legacy.Some? <==> "definitions" in old(heap[ref]) && old(heap[ref]["definitions"]).Ptr?
      ensures legacy.Some? ==> legacy.value !in old(heap)
      ensures var root := old(heap[ref]) - (if legacy.Some? then {"$defs", "definitions"} else {"$defs"});
              heap == if legacy.Some? then old(heap)[ref := root][legacy.value := Entries(old(heap), ref, "definitions")]
                      else old(heap)[ref := root]
    {
      legacy := None;
      heap := heap[ref := heap[ref] - {"$defs"}];
      if "definitions" in heap[ref] && heap[ref]["definitions"].Ptr? {
        legacy := Some(next);
        heap := heap[next := heap[heap[ref]["definitions"].ref]];
        next := next + 1;
        heap := heap[ref := heap[ref] - {"definitions"}];
        assert old(heap[ref]) - {"$defs"} - {"definitions"} == old(heap[ref]) - {"$defs", "definitions"};
        assert heap == old(heap)[ref := heap[ref]][legacy.value := heap[legacy.value]];
      }
    }

    method TakeDialect(ref: Ref) returns (dialect: Option<Value>)
      requires ref in heap
      modifies this`heap
      ensures dialect == if "$schema" in old(heap[ref]) then Some(old(heap[ref]["$schema"])) else None
      ensures heap == old(heap)[ref := old(heap[ref]) - {"$schema"}]
    {
      dialect := None;
      if "$schema" in heap[ref] {
        dialect := Some(heap[ref]["$schema"]);
        heap := heap[ref := heap[ref] - {"$schema"}];
      } else {
        assert heap[ref] - {"$schema"} == heap[ref];
        assert heap[ref := heap[ref]] == heap;
      }
    }
  }

  /** A pointer stands for an object that is there. */
  lemma RootIsObj(h: Heap, v: Value, t: Json)
    requires Holds(h, v, t)
    ensures v.Ptr? ==> v.ref in h && t.Obj?
  {
  }

  /** The entries of the object that a member points to, if it is one. */
  function Entries(h: Heap, ref: Ref, key: string): map<string, Value> {
    if ref in h && key in h[ref] && h[ref][key].Ptr? && h[ref][key].ref in h then h[h[ref][key].ref] else map[]
  }

  /** What the hoisted values hold after the rearrangement. */
  ghost predicate Hoisted(h: Heap, walked: Json, name: string, drop: set<string>,
                          defs: Ref, legacy: Option<Ref>, dialect: Option<Value>)
    requires walked.Obj?
  {
    && Holds(h, Ptr(defs), Obj(Members(walked, "$defs")[name := Obj(walked.fields - drop)]))
    && (legacy.Some? ==> Holds(h, Ptr(legacy.value), Obj(Members(walked, "definitions"))))
    && (dialect.Some? <==> "$schema" in walked.fields)
    && (dialect.Some? ==> Holds(h, dialect.value, walked.fields["$schema"]))
  }

  lemma {:induction false} Rearranged(h: Heap, h': Heap, ref: Ref, fields: map<string, Json>, name: string,
                                      drop: set<string>,
                   defs: Ref, legacy: Option<Ref>, dialect: Option<Value>)
    requires Holds(h, Ptr(ref), Obj(fields)) && Sep(h, Ptr(ref), Obj(fields))
    requires defs !in Foot(h, Ptr(ref), Obj(fields))
    requires defs in h && h[defs] == Entries(h, ref, "$defs")
    requires legacy.Some? ==> legacy.value in h' && h'[legacy.value] == Entries(h, ref, "definitions")
    requires dialect == if "$schema" in h[ref] then Some(h[ref]["$schema"]) else None
    requires ref in h' && h'[ref] == h[ref] - drop
    requires defs in h' && h'[defs] == h[defs][name := Ptr(ref)]
    requires Agree(h, h', h.Keys - {ref, defs})
    ensures Hoisted(h', Obj(fields), name, drop, defs, legacy, dialect)
  {
    FootInHeap(h, Ptr(ref), Obj(fields));
    DropMembers(h, h', ref, fields, drop, Foot(h, Ptr(ref), Obj(fields)));
    EntriesHold(h, h', ref, fields, "$defs");
    EntriesHold(h, h', ref, fields, "definitions");
  }

  lemma {:induction false} ComposedHolds(h: Heap, t: Json, walked: Json, name: string,
                      defs: Ref, legacy: Option<Ref>, dialect: Option<Value>)
    requires t.Obj? && walked == Walk(t, name)
    requires legacy.Some? <==> Walked(t) && IsObject(walked, "definitions")
    requires Hoisted(h, walked, name, Deleted(Walked(t), IsObject(walked, "definitions")), defs, legacy, dialect)
    ensures ComposedIn(h, t, name, defs, legacy, dialect)
  {
    ComposedParts(t, walked, name, legacy.Some?);
  }

  lemma {:induction false} PlainHolds(h: Heap, v: Value, t: Json, name: string, defs: Ref)
    requires !t.Obj? && Holds(h, v, t) && defs in h && h[defs] == map[name := v]
    ensures ComposedIn(h, t, name, defs, None, None)
  {
    EnvelopeMembers(name, HoistedDefs(t, name)[name := Embedded(t, name)]);
  }

  /** The hoisted values hold the members of the composed document. */
  ghost predicate ComposedIn(h: Heap, t: Json, name: string, defs: Ref, legacy: Option<Ref>, dialect: Option<Value>) {
    var doc := Compose(t, name).fields;
    && "$defs" in doc && Holds(h, Ptr(defs), doc["$defs"])
    && (legacy.Some? <==> "definitions" in doc)
    && (legacy.Some? ==> Holds(h, Ptr(legacy.value), doc["definitions"]))
    && (dialect.Some? <==> "$schema" in doc)
    && (dialect.Some? ==> Holds(h, dialect.value, doc["$schema"]))
  }

  lemma {:induction false} ComposedParts(t: Json, walked: Json, name: string, legacy: bool)
    requires t.Obj? && walked == Walk(t, name)
    requires legacy <==> Walked(t) && IsObject(walked, "definitions")
    ensures var doc := Compose(t, name).fields;
            && walked.Obj?
            && doc["$defs"] == Obj(Members(walked, "$defs")[name := Embedded(t, name)])
            && (legacy <==> "definitions" in doc)
            && (legacy ==> doc["definitions"] == Obj(Members(walked, "definitions")))
            && ("$schema" in walked.fields <==> "$schema" in doc)
            && ("$schema" in doc ==> doc["$schema"] == walked.fields["$schema"])
  {
    var hoisted := HoistedDefs(t, name)[name := Embedded(t, name)];
    EnvelopeMembers(name, hoisted);
    MergeMembers(Envelope(name, hoisted), walked, legacy);
  }

  lemma MergeMembers(base: map<string, Json>, v: Json, legacy: bool)
    requires v.Obj? && "$defs" in base && "$schema" !in base && "definitions" !in base
    requires legacy ==> IsObject(v, "definitions")
    ensures var doc := base + Kept(v, "$schema", true) + Kept(v, "definitions", legacy);
            && "$defs" in doc && doc["$defs"] == base["$defs"]
            && (legacy <==> "definitions" in doc) && (legacy ==> doc["definitions"] == v.fields["definitions"])
            && ("$schema" in v.fields <==> "$schema" in doc)
            && ("$schema" in doc ==> doc["$schema"] == v.fields["$schema"])
  {
  }

  lemma DefsEntries(h: Heap, ref: Ref, fields: map<string, Json>)
    requires Holds(h, Ptr(ref), Obj(fields))
    ensures Entries(h, ref, "$defs").Keys == Members(Obj(fields), "$defs").Keys
    ensures "$defs" in h[ref] && h[ref]["$defs"].Ptr? ==>
              h[ref]["$defs"].ref in h && h[ref]["$defs"].ref in Foot(h, Ptr(ref), Obj(fields))
  {
    if "$defs" in fields {
      var v, t := h[ref]["$defs"], fields["$defs"];
      assert Holds(h, v, t) && Foot(h, v, t) <= Foot(h, Ptr(ref), Obj(fields));
      if t.Obj? { assert v.ref in Foot(h, v, t); }
    }
  }

  lemma EntriesKept(h: Heap, h': Heap, ref: Ref, fields: map<string, Json>)
    requires Holds(h, Ptr(ref), Obj(fields)) && NamedKept(h, h', ref)
    requires h'[ref].Keys == h[ref].Keys && h'.Keys == h.Keys
    ensures Entries(h', ref, "$defs") == Entries(h, ref, "$defs")
  {
    if "$defs" in fields { assert Holds(h, h[ref]["$defs"], fields["$defs"]); }
  }

  lemma DefinitionsApart(h: Heap, ref: Ref, fields: map<string, Json>)
    requires Holds(h, Ptr(ref), Obj(fields)) && Sep(h, Ptr(ref), Obj(fields))
    ensures IsObject(Obj(fields), "definitions") <==> "definitions" in h[ref] && h[ref]["definitions"].Ptr?
    ensures "definitions" in h[ref] && h[ref]["definitions"].Ptr? ==>
              h[ref]["definitions"].ref in h && h[ref]["definitions"].ref in Foot(h, Ptr(ref), Obj(fields)) - {ref}
  {
    if "definitions" in fields {
      var v, t := h[ref]["definitions"], fields["definitions"];
      assert Holds(h, v, t) && Foot(h, v, t) <= Foot(h, Ptr(ref), Obj(fields));
      if t.Obj? { assert v.ref in Foot(h, v, t); }
    }
  }

  lemma {:induction false} EntriesHold(h: Heap, h': Heap, ref: Ref, fields: map<string, Json>, key: string)
    requires Holds(h, Ptr(ref), Obj(fields)) && Sep(h, Ptr(ref), Obj(fields))
    requires forall k | k in fields :: Holds(h', h[ref][k], fields[k])
    requires Agree(h, h', Foot(h, Ptr(ref), Obj(fields)) - {ref})
    ensures var entries, members := Entries(h, ref, key), Members(Obj(fields), key);
            entries.Keys == members.Keys && forall k | k in members :: Holds(h', entries[k], members[k])
  {
    if key in fields {
      assert Holds(h, h[ref][key], fields[key]) && Holds(h', h[ref][key], fields[key]);
      if fields[key].Obj? {
        assert h[ref][key].ref in Foot(h, h[ref][key], fields[key]);
        assert h[ref][key].ref in Foot(h, Ptr(ref), Obj(fields));
      }
    }
  }

  /** Deleting members of the root leaves every member's own tree where it was. */
  lemma DropMembers(h: Heap, h': Heap, ref: Ref, fields: map<string, Json>, drop: set<string>, foot: set<Ref>)
    requires Tree(h, Ptr(ref), Obj(fields), foot)
    requires ref in h' && h'[ref] == h[ref] - drop && Agree(h, h', foot - {ref})
    ensures Holds(h', Ptr(ref), Obj(fields - drop))
    ensures forall k | k in fields :: Holds(h', h[ref][k], fields[k])
  {
    forall k | k in fields ensures Holds(h', h[ref][k], fields[k]) {
      assert Foot(h, h[ref][k], fields[k]) <= foot;
      Frame(h, h', h[ref][k], fields[k]);
    }
  }

  /** FieldMode below a schema object whose resource nesting is already known. */
  ghost function MemberMode(nested: bool, key: string): Mode {
    if key in NAME_MAPS then NameMap(nested)
    else if key in INSTANCES then Data
    else if !nested && key in REFERENCES then RefNode
    else SchemaNode(nested)
  }

  /** The members of an object, or of a name map, when those in `todo` are still to be walked. */
  ghost function Partial(fields: map<string, Json>, todo: set<string>, nested: bool, named: bool, name: string)
    : map<string, Json>
  {
    map k | k in fields ::
      if k in todo then fields[k] else Rewrite(fields[k], if named then SchemaNode(nested) else MemberMode(nested, k), name)
  }

  lemma PartialStart(fields: map<string, Json>, nested: bool, named: bool, name: string)
    ensures Partial(fields, fields.Keys, nested, named, name) == fields
  {
  }

  lemma PartialStep(fields: map<string, Json>, todo: set<string>, nested: bool, named: bool, name: string, key: string)
    requires key in todo && key in fields
    ensures Partial(fields, todo, nested, named, name)
              [key := Rewrite(fields[key], if named then SchemaNode(nested) else MemberMode(nested, key), name)] ==
            Partial(fields, todo - {key}, nested, named, name)
  {
  }

  lemma NamesEnd(fields: map<string, Json>, nested: bool, name: string)
    ensures Obj(Partial(fields, {}, nested, true, name)) == Rewrite(Obj(fields), NameMap(nested), name)
  {
  }

  lemma PartialEnd(fields: map<string, Json>, nestedResource: bool, name: string)
    ensures Obj(Partial(fields, {}, nestedResource || "$id" in fields, false, name)) ==
            Rewrite(Obj(fields), SchemaNode(nestedResource), name)
  {
    var m := SchemaNode(nestedResource);
    forall k | k in fields ensures FieldMode(fields, m, k) == MemberMode(nestedResource || "$id" in fields, k) {
    }
  }

  lemma RefNodeIsSchemaNode(t: Json, name: string)
    requires !t.Str?
    ensures Rewrite(t, RefNode, name) == Rewrite(t, SchemaNode(false), name)
  {
    match t
    case Obj(fields) =>
      assert forall k | k in fields :: FieldMode(fields, RefNode, k) == FieldMode(fields, SchemaNode(false), k);
    case _ =>
  }

  lemma NameMapNeedsObject(t: Json, nested: bool, name: string)
    requires !t.Obj?
    ensures Rewrite(t, NameMap(nested), name) == t
  {
    if t.Arr? {
      forall i | 0 <= i < |t.items| ensures Rewrite(t.items[i], Data, name) == t.items[i] {
        UntouchedIsIdentity(t.items[i], Data, name);
      }
    }
  }
}
