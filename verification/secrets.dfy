/** Scoped secrets (backend/secrets.go:11-84). A name means its definition in the nearest enclosing scope. The code
finds it by walking maps in whatever order they iterate; that the answer does not depend on the order rests on one
invariant of the store and on enclosing scopes being prefixes of each other. */
module Secrets {
  import opened Wrappers

  datatype Scope = Scope(run: string, path: string)
  type Stores = map<string, map<string, string>>
  type Values = map<Scope, Stores>

  datatype Value = Value(name: string, value: string)
  datatype Write = Write(store: string, values: seq<Value>)
  datatype Requirement = Requirement(store: string, names: seq<string>)
  /** One name defined in one store of one scope. */
  datatype Def = Def(scope: Scope, store: string, name: string)
  datatype Granted = Granted(values: map<string, string>) | Unavailable(name: string, store: string)

  predicate WithinScope(parent: string, child: string) { parent == "" || child == parent || parent + "/" <= child }

  predicate Encloses(a: Scope, s: Scope) { a.run == s.run && WithinScope(a.path, s.path) }

  predicate Defines(v: Values, d: Def) { d.scope in v && d.store in v[d.scope] && d.name in v[d.scope][d.store] }

  function Meaning(v: Values, d: Def): string
    requires Defines(v, d)
  {
    v[d.scope][d.store][d.name]
  }

  /** A scope defines a name in at most one of its stores. */
  ghost predicate OneStore(v: Values) {
    forall d, e | Defines(v, d) && Defines(v, e) && d.scope == e.scope && d.name == e.name :: d == e
  }

  /** The definition in the nearest enclosing scope. */
  ghost predicate Nearest(v: Values, s: Scope, name: string, d: Def) {
    && Defines(v, d) && d.name == name && Encloses(d.scope, s)
    && (forall e | Defines(v, e) && e.name == name && Encloses(e.scope, s) :: |e.scope.path| <= |d.scope.path|)
  }

  /** The scope itself or one below it; the empty path is the whole run. */
  ghost predicate Under(parent: string, child: string) {
    parent == "" || child == parent || exists rest :: child == parent + "/" + rest
  }

  lemma WithinExactly(parent: string, child: string)
    ensures WithinScope(parent, child) <==> Under(parent, child)
  {
    if parent + "/" <= child { assert child == parent + "/" + child[|parent| + 1..]; }
  }

  /** Two enclosing scopes of the same length are the same. */
  lemma EnclosingIsChain(a: Scope, b: Scope, s: Scope)
    requires Encloses(a, s) && Encloses(b, s) && |a.path| == |b.path|
    ensures a == b
  {
    assert a.path <= s.path && b.path <= s.path;
    assert a.path == s.path[..|a.path|] && b.path == s.path[..|b.path|];
  }

  lemma NearestIsUnique(v: Values, s: Scope, name: string, d: Def, e: Def)
    requires OneStore(v) && Nearest(v, s, name, d) && Nearest(v, s, name, e)
    ensures d == e
  {
    EnclosingIsChain(d.scope, e.scope, s);
  }

  ghost predicate Satisfied(v: Values, s: Scope, name: string, store: string) {
    exists d :: Nearest(v, s, name, d) && d.store == store
  }

  ghost predicate AllSatisfied(v: Values, s: Scope, rs: seq<Requirement>) {
    forall i, k | 0 <= i < |rs| && 0 <= k < |rs[i].names| :: Satisfied(v, s, rs[i].names[k], rs[i].store)
  }

  function Allowed(rs: seq<Requirement>): set<string> { set r | r in rs :: r.store }

  ghost predicate Granting(v: Values, s: Scope, rs: seq<Requirement>, values: map<string, string>, name: string) {
    && (name in values <==> exists d :: Nearest(v, s, name, d) && d.store in Allowed(rs))
    && (forall d | Nearest(v, s, name, d) && name in values :: values[name] == Meaning(v, d))
  }

  /** The nearest definitions that live in granted stores, and nothing else. */
  ghost predicate Grants(v: Values, s: Scope, rs: seq<Requirement>, values: map<string, string>) {
    forall name :: Granting(v, s, rs, values, name)
  }

  /** Acquire's answer is determined by the store, whatever order the maps are walked in. */
  lemma AnswerIsDetermined(v: Values, s: Scope, rs: seq<Requirement>, a: map<string, string>, b: map<string, string>)
    requires OneStore(v) && Grants(v, s, rs, a) && Grants(v, s, rs, b)
    ensures a == b
  {
    forall name ensures (name in a <==> name in b) && (name in a && name in b ==> a[name] == b[name]) {
      assert Granting(v, s, rs, a, name) && Granting(v, s, rs, b, name);
    }
  }

  // ---- the walk of Acquire ----

  datatype Visible = Visible(depth: nat, store: string, value: string)

  /** `visible` holds the deepest of the definitions seen so far for every name. */
  ghost predicate Deepest(v: Values, seen: set<Def>, visible: map<string, Visible>) {
    && (forall d | d in seen :: Defines(v, d) && d.name in visible && |d.scope.path| <= visible[d.name].depth)
    && (forall name | name in visible :: Backed(v, seen, name, visible[name]))
  }

  ghost predicate Backed(v: Values, seen: set<Def>, name: string, x: Visible) {
    exists d :: d in seen && Defines(v, d) && d.name == name && x == Visible(|d.scope.path|, d.store, Meaning(v, d))
  }

  lemma DeepestNext(v: Values, seen: set<Def>, visible: map<string, Visible>, d: Def)
    requires Deepest(v, seen, visible) && Defines(v, d)
    ensures var keep := d.name in visible && |d.scope.path| <= visible[d.name].depth;
            Deepest(v, seen + {d}, if keep then visible
                                   else visible[d.name := Visible(|d.scope.path|, d.store, Meaning(v, d))])
  {
    var seen' := seen + {d};
    forall name | name in visible ensures Backed(v, seen', name, visible[name]) {
      assert Backed(v, seen, name, visible[name]);
      var e :| e in seen && Defines(v, e) && e.name == name && visible[name] == Visible(|e.scope.path|, e.store, Meaning(v, e));
      assert e in seen';
    }
    assert d in seen';
    assert Backed(v, seen', d.name, Visible(|d.scope.path|, d.store, Meaning(v, d)));
  }

  ghost predicate AllSeen(v: Values, s: Scope, seen: set<Def>) {
    forall d :: d in seen <==> Defines(v, d) && Encloses(d.scope, s)
  }

  /** Once everything has been seen, what is visible is the nearest definition. */
  lemma VisibleIsNearest(v: Values, s: Scope, seen: set<Def>, visible: map<string, Visible>, name: string)
    requires OneStore(v) && Deepest(v, seen, visible) && AllSeen(v, s, seen)
    ensures name in visible <==> exists d :: Nearest(v, s, name, d)
    ensures forall d | Nearest(v, s, name, d) :: name in visible && visible[name].store == d.store && visible[name].value == Meaning(v, d)
  {
    if name in visible {
      assert Backed(v, seen, name, visible[name]);
      var d :| d in seen && Defines(v, d) && d.name == name && visible[name] == Visible(|d.scope.path|, d.store, Meaning(v, d));
      assert Nearest(v, s, name, d);
      forall e | Nearest(v, s, name, e) ensures e == d { NearestIsUnique(v, s, name, e, d); }
    }
    forall d | Nearest(v, s, name, d) ensures name in visible { assert d in seen; }
  }

  class ScopedValues {
    var v: Values

    ghost predicate Valid()
      reads this
    {
      OneStore(v)
    }

    constructor ()
      ensures Valid() && v == map[]
    {
      v := map[];
    }

    /** Adds the definitions of one write, or nothing (secrets.go:17-40). */
    method Publish(s: Scope, w: Write) returns (ok: bool)
      requires Valid()
      modifies this
      ensures Valid()
      ensures ok <==> Publishable(old(v), s, w)
      ensures !ok ==> v == old(v)
      ensures ok ==> Adds(old(v), s, w, |w.values|, v)
    {
      ok := MayPublish(s, w);
      if ok {
        ghost var was := v;
        StoreAll(s, w);
        StillOneStore(was, v, s, w);
      }
    }

    /** The first loop: every name is new to the write and to the scope. */
    method MayPublish(s: Scope, w: Write) returns (ok: bool)
      ensures ok <==> Publishable(v, s, w)
    {
      var seen := {};
      for i := 0 to |w.values|
        invariant forall name :: name in seen <==> exists k :: 0 <= k < i && w.values[k].name == name
        invariant forall j, k | 0 <= j < k < i :: w.values[j].name != w.values[k].name
        invariant forall k | 0 <= k < i :: Free(v, s, w.values[k].name)
      {
        var name := w.values[i].name;
        if name in seen { return false; }
        seen := seen + {name};
        var taken := DefinedIn(s, name);
        if taken { return false; }
      }
      ok := true;
    }

    /** The second loop. */
    method StoreAll(s: Scope, w: Write)
      requires Publishable(v, s, w)
      modifies this
      ensures Adds(old(v), s, w, |w.values|, v)
    {
      var stores: Stores := if s in v then v[s] else map[];
      var store := if w.store in stores then stores[w.store] else map[];
      v := v[s := stores[w.store := store]];
      for i := 0 to |w.values|
        invariant s in v && w.store in v[s] && Adds(old(v), s, w, i, v)
      {
        AddsNext(old(v), s, w, i, v);
        v := v[s := v[s][w.store := v[s][w.store][w.values[i].name := w.values[i].value]]];
      }
    }

    method DefinedIn(s: Scope, name: string) returns (taken: bool)
      ensures taken <==> !Free(v, s, name)
    {
      if s in v {
        var todo := v[s].Keys;
        while todo != {}
          invariant todo <= v[s].Keys && forall store | store in v[s] && store !in todo :: name !in v[s][store]
          decreases todo
        {
          var store :| store in todo;
          if name in v[s][store] {
            assert Defines(v, Def(s, store, name));
            return true;
          }
          todo := todo - {store};
        }
      }
      taken := false;
    }

    /** Secrets.go:41-77; the error names a requirement that is not met. */
    method Acquire(s: Scope, rs: seq<Requirement>) returns (r: Granted)
      requires Valid()
      ensures r.Granted? <==> AllSatisfied(v, s, rs)
      ensures r.Granted? ==> Grants(v, s, rs, r.values)
      ensures r.Unavailable? ==> !Satisfied(v, s, r.name, r.store)
    {
      hide Deepest, AllSeen, Satisfied;
      var visible, seen := Look(s);
      var allowed, missing := CheckRequirements(s, rs, visible, seen);
      if missing.Some? { return Unavailable(missing.value.0, missing.value.1); }
      var values := Select(visible, allowed);
      forall name ensures Granting(v, s, rs, values, name) { SelectedIsGranted(v, s, rs, seen, visible, values, name); }
      r := Granted(values);
    }

    /** The stores that are granted, and the first required name that is not visible in its store. */
    method CheckRequirements(s: Scope, rs: seq<Requirement>, visible: map<string, Visible>, ghost seen: set<Def>)
      returns (allowed: set<string>, missing: Option<(string, string)>)
      requires Valid() && Deepest(v, seen, visible) && AllSeen(v, s, seen)
      ensures missing.None? <==> AllSatisfied(v, s, rs)
      ensures missing.None? ==> allowed == Allowed(rs)
      ensures missing.Some? ==> !Satisfied(v, s, missing.value.0, missing.value.1)
    {
      allowed := {};
      for i := 0 to |rs|
        invariant allowed == Allowed(rs[..i])
        invariant forall j, k | 0 <= j < i && 0 <= k < |rs[j].names| :: Satisfied(v, s, rs[j].names[k], rs[j].store)
      {
        AllowedNext(rs[..i], rs[i]);
        assert rs[..i] + [rs[i]] == rs[..i + 1];
        allowed := allowed + {rs[i].store};
        for k := 0 to |rs[i].names|
          invariant forall l | 0 <= l < k :: Satisfied(v, s, rs[i].names[l], rs[i].store)
        {
          var name := rs[i].names[k];
          VisibleIsSatisfied(v, s, seen, visible, name, rs[i].store);
          if name !in visible || visible[name].store != rs[i].store { return allowed, Some((name, rs[i].store)); }
        }
      }
      assert rs[..|rs|] == rs;
      missing := None;
    }

    method Select(visible: map<string, Visible>, allowed: set<string>) returns (values: map<string, string>)
      ensures values == map name | name in visible && visible[name].store in allowed :: visible[name].value
    {
      values := map[];
      var todo := visible.Keys;
      while todo != {}
        invariant todo <= visible.Keys
        invariant values == map name | name in visible && name !in todo && visible[name].store in allowed :: visible[name].value
        decreases todo
      {
        var name :| name in todo;
        todo := todo - {name};
        if visible[name].store in allowed { values := values[name := visible[name].value]; }
      }
    }

    /** The three nested walks (secrets.go:46-59). */
    method Look(s: Scope) returns (visible: map<string, Visible>, ghost seen: set<Def>)
      ensures Deepest(v, seen, visible) && AllSeen(v, s, seen)
    {
      visible, seen := map[], {};
      var scopes := v.Keys;
      while scopes != {}
        invariant scopes <= v.Keys && Deepest(v, seen, visible)
        invariant forall d :: d in seen <==> Defines(v, d) && Encloses(d.scope, s) && d.scope !in scopes
        decreases scopes
      {
        var a :| a in scopes;
        scopes := scopes - {a};
        if Encloses(a, s) { visible, seen := LookIn(a, visible, seen); }
      }
    }

    method LookIn(a: Scope, visible0: map<string, Visible>, ghost seen0: set<Def>)
      returns (visible: map<string, Visible>, ghost seen: set<Def>)
      requires a in v && Deepest(v, seen0, visible0)
      ensures Deepest(v, seen, visible) && forall d :: d in seen <==> d in seen0 || (Defines(v, d) && d.scope == a)
    {
      visible, seen := visible0, seen0;
      var stores := v[a].Keys;
      while stores != {}
        invariant stores <= v[a].Keys && Deepest(v, seen, visible)
        invariant forall d :: d in seen <==> d in seen0 || (Defines(v, d) && d.scope == a && d.store !in stores)
        decreases stores
      {
        var store :| store in stores;
        stores := stores - {store};
        visible, seen := LookAt(a, store, visible, seen);
      }
    }

    method LookAt(a: Scope, store: string, visible0: map<string, Visible>, ghost seen0: set<Def>)
      returns (visible: map<string, Visible>, ghost seen: set<Def>)
      requires a in v && store in v[a] && Deepest(v, seen0, visible0)
      ensures Deepest(v, seen, visible) && forall d :: d in seen <==> d in seen0 || (Defines(v, d) && d.scope == a && d.store == store)
    {
      hide Deepest;
      visible, seen := visible0, seen0;
      var names := v[a][store].Keys;
      while names != {}
        invariant names <= v[a][store].Keys && Deepest(v, seen, visible)
        invariant forall d :: d in seen <==> d in seen0 || (Defines(v, d) && d.scope == a && d.store == store && d.name !in names)
        decreases names
      {
        var name :| name in names;
        names := names - {name};
        DeepestNext(v, seen, visible, Def(a, store, name));
        if name !in visible || |a.path| > visible[name].depth {
          visible := visible[name := Visible(|a.path|, store, v[a][store][name])];
        }
        seen := seen + {Def(a, store, name)};
      }
    }

    /** Forgets exactly the scope and everything under it (secrets.go:78-84). */
    method Release(s: Scope)
      requires Valid()
      modifies this
      ensures Valid()
      ensures v == Outside(old(v), s, {})
      ensures forall d :: Defines(v, d) <==> Defines(old(v), d) && !(d.scope.run == s.run && Under(s.path, d.scope.path))
      ensures forall d | Defines(v, d) :: Meaning(v, d) == Meaning(old(v), d)
    {
      forall child: string ensures WithinScope(s.path, child) <==> Under(s.path, child) { WithinExactly(s.path, child); }
      var todo := v.Keys;
      while todo != {}
        invariant todo <= v.Keys && v == Outside(old(v), s, todo)
        decreases todo
      {
        var a :| a in todo;
        todo := todo - {a};
        if a.run == s.run && WithinScope(s.path, a.path) { v := v - {a}; }
      }
      FewerDefs(old(v), v);
    }
  }

  /** The scopes that are not under `s`, or that are still to be looked at. */
  function Outside(v: Values, s: Scope, todo: set<Scope>): Values {
    map a | a in v && (a in todo || !(a.run == s.run && WithinScope(s.path, a.path))) :: v[a]
  }

  lemma FewerDefs(v: Values, v': Values)
    requires OneStore(v) && forall a | a in v' :: a in v && v'[a] == v[a]
    ensures OneStore(v')
  {
    assert forall d | Defines(v', d) :: Defines(v, d);
  }

  ghost predicate Free(v: Values, s: Scope, name: string) { forall store :: !Defines(v, Def(s, store, name)) }

  predicate Writes(s: Scope, w: Write, d: Def) { WritesUpTo(s, w, |w.values|, d) }

  predicate WritesUpTo(s: Scope, w: Write, n: nat, d: Def) {
    d.scope == s && d.store == w.store && exists i :: 0 <= i < n && i < |w.values| && w.values[i].name == d.name
  }

  /** A write is taken when its names are distinct and none is defined in the scope yet. */
  ghost predicate Publishable(v: Values, s: Scope, w: Write) {
    && (forall i, j | 0 <= i < j < |w.values| :: w.values[i].name != w.values[j].name)
    && (forall i | 0 <= i < |w.values| :: Free(v, s, w.values[i].name))
  }

  /** `v'` is `v` with the first `n` values of a write added. */
  ghost predicate Adds(v: Values, s: Scope, w: Write, n: nat, v': Values) {
    && (forall d :: Defines(v', d) <==> Defines(v, d) || WritesUpTo(s, w, n, d))
    && (forall d | Defines(v, d) && Defines(v', d) :: Meaning(v', d) == Meaning(v, d))
    && (forall k | 0 <= k < n && k < |w.values| :: Holds(v', Def(s, w.store, w.values[k].name), w.values[k].value))
  }

  predicate Holds(v: Values, d: Def, value: string) { Defines(v, d) && Meaning(v, d) == value }

  lemma AddsNext(v: Values, s: Scope, w: Write, i: nat, u: Values)
    requires Publishable(v, s, w) && i < |w.values| && Adds(v, s, w, i, u) && s in u && w.store in u[s]
    ensures Adds(v, s, w, i + 1, u[s := u[s][w.store := u[s][w.store][w.values[i].name := w.values[i].value]]])
  {
    var x := w.values[i];
    var u' := u[s := u[s][w.store := u[s][w.store][x.name := x.value]]];
    var here := Def(s, w.store, x.name);
    assert Free(v, s, x.name) && !Defines(v, here);
    forall d ensures Defines(u', d) <==> Defines(u, d) || d == here {}
    forall d ensures WritesUpTo(s, w, i + 1, d) <==> WritesUpTo(s, w, i, d) || d == here {
      if d == here { assert w.values[i].name == d.name; }
    }
    forall d | Defines(u, d) && d != here ensures Meaning(u', d) == Meaning(u, d) {}
    forall k | 0 <= k < i ensures Holds(u', Def(s, w.store, w.values[k].name), w.values[k].value) {
      assert Holds(u, Def(s, w.store, w.values[k].name), w.values[k].value);
    }
  }

  lemma VisibleIsSatisfied(v: Values, s: Scope, seen: set<Def>, visible: map<string, Visible>, name: string,
                           store: string)
    requires OneStore(v) && Deepest(v, seen, visible) && AllSeen(v, s, seen)
    ensures Satisfied(v, s, name, store) <==> name in visible && visible[name].store == store
  {
    VisibleIsNearest(v, s, seen, visible, name);
  }

  lemma StillOneStore(v: Values, v': Values, s: Scope, w: Write)
    requires OneStore(v) && Publishable(v, s, w) && Adds(v, s, w, |w.values|, v')
    ensures OneStore(v')
  {
    assert forall d | Writes(s, w, d) :: Free(v, s, d.name);
    assert forall d: Def :: d == Def(d.scope, d.store, d.name);
  }

  lemma AllowedNext(rs: seq<Requirement>, r: Requirement)
    ensures Allowed(rs + [r]) == Allowed(rs) + {r.store}
  {
    assert r in rs + [r];
  }

  lemma SelectedIsGranted(v: Values, s: Scope, rs: seq<Requirement>, seen: set<Def>, visible: map<string, Visible>,
                          values: map<string, string>, name: string)
    requires OneStore(v) && Deepest(v, seen, visible) && AllSeen(v, s, seen)
    requires values == map n | n in visible && visible[n].store in Allowed(rs) :: visible[n].value
    ensures Granting(v, s, rs, values, name)
  {
    VisibleIsNearest(v, s, seen, visible, name);
  }
}
