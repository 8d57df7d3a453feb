/** claude/claude.go: a caller's JSON Schema is embedded under a private definition of a completion
envelope, and its local references are redirected so that each still means what it meant.

The functions here are the meaning of completionSchema on trees; schema_store.dfy proves the in-place
walk against them. */
module Schema {
  import opened Wrappers
  import opened JsonPointer

  const BASE := "__gimbal_completion_value"
  const NAME_MAPS: set<string> := {"properties", "patternProperties", "dependentSchemas", "$defs", "definitions"}
  const INSTANCES: set<string> := {"const", "default", "enum", "examples"}
  const REFERENCES: set<string> := {"$ref", "$dynamicRef", "$recursiveRef"}
  const HOISTED: set<string> := {"$defs", "definitions"}

  /** How the walk sees a node: as a schema, as a map from caller-chosen names to schemas, as literal
  data, or as the value of a reference keyword. `nested` is set inside a resource with its own $id. */
  datatype Mode = SchemaNode(nested: bool) | NameMap(nested: bool) | Data | RefNode

  function Starts(s: string, prefix: string): bool { prefix <= s }

  /** The test at claude/claude.go:543. */
  predicate Redirects(ref: string) {
    && (ref == "#" || Starts(ref, "#/"))
    && ref != "#/$defs" && !Starts(ref, "#/$defs/")
    && ref != "#/definitions" && !Starts(ref, "#/definitions/")
  }

  function RewriteRef(ref: string, name: string): string {
    if Redirects(ref) then "#/$defs/" + name + ref[1..] else ref
  }

  function FieldMode(fields: map<string, Json>, m: Mode, key: string): Mode {
    match m
    case Data => Data
    case NameMap(nested) => SchemaNode(nested)
    case _ =>
      var nested := (m.SchemaNode? && m.nested) || "$id" in fields;
      if key in NAME_MAPS then NameMap(nested)
      else if key in INSTANCES then Data
      else if !nested && key in REFERENCES then RefNode
      else SchemaNode(nested)
  }

  /** A name map that is not an object is left alone (claude/claude.go:556-559). */
  function ItemMode(m: Mode): Mode {
    match m
    case SchemaNode(nested) => m
    case RefNode => SchemaNode(false)
    case _ => Data
  }

  function Rewrite(v: Json, m: Mode, name: string): Json
    decreases v
  {
    match v
    case Obj(fields) => Obj(map k | k in fields :: Rewrite(fields[k], FieldMode(fields, m, k), name))
    case Arr(items) => Arr(seq(|items|, i requires 0 <= i < |items| => Rewrite(items[i], ItemMode(m), name)))
    case Str(s) => if m.RefNode? then Str(RewriteRef(s, name)) else v
    case Scalar(_) => v
  }

  /** The mode in which the walk reaches the node that `tokens` resolve to. */
  function ModeAt(v: Json, m: Mode, tokens: seq<string>): Mode {
    if tokens == [] then m
    else
      match Child(v, tokens[0])
      case None => m
      case Some(next) =>
        ModeAt(next, if v.Obj? then FieldMode(v.fields, m, tokens[0]) else ItemMode(m), tokens[1..])
  }

  /** Rewriting commutes with following a pointer. */
  lemma {:induction false} ResolveRewrite(v: Json, m: Mode, name: string, tokens: seq<string>)
    ensures Resolve(Rewrite(v, m, name), tokens) ==
            match Resolve(v, tokens)
            case Some(t) => Some(Rewrite(t, ModeAt(v, m, tokens), name))
            case None => None
  {
    if tokens != [] {
      match Child(v, tokens[0]) {
        case None =>
        case Some(next) =>
          ResolveRewrite(next, if v.Obj? then FieldMode(v.fields, m, tokens[0]) else ItemMode(m), name, tokens[1..]);
      }
    }
  }

  ghost predicate Untouched(m: Mode) { m.Data? || (!m.RefNode? && m.nested) }

  /** Instance data and everything inside a nested resource keep every byte. */
  lemma {:induction false} UntouchedIsIdentity(v: Json, m: Mode, name: string)
    requires Untouched(m)
    ensures Rewrite(v, m, name) == v
    decreases v
  {
    match v
    case Obj(fields) =>
      forall k | k in fields ensures Rewrite(fields[k], FieldMode(fields, m, k), name) == fields[k] {
        UntouchedIsIdentity(fields[k], FieldMode(fields, m, k), name);
      }
    case Arr(items) =>
      forall i | 0 <= i < |items| ensures Rewrite(items[i], ItemMode(m), name) == items[i] {
        UntouchedIsIdentity(items[i], ItemMode(m), name);
      }
    case _ =>
  }

  // ---- the private name ----

  function Underscores(n: nat): string { seq(n, _ => '_') }

  ghost predicate FreshFor(name: string, taken: set<string>) {
    exists n: nat :: name == BASE + Underscores(n) && name !in taken &&
                     forall m: nat | m < n :: BASE + Underscores(m) in taken
  }

  lemma FreshIsUnique(a: string, b: string, taken: set<string>)
    requires FreshFor(a, taken) && FreshFor(b, taken)
    ensures a == b
  {
  }

  /** The loop at claude/claude.go:471-476. It ends because each turn retires one taken name. */
  method FreshName(taken: set<string>) returns (name: string)
    ensures FreshFor(name, taken)
  {
    name := BASE;
    ghost var n: nat := 0;
    ghost var left := taken;
    assert BASE + Underscores(0) == BASE;
    while name in taken
      invariant name == BASE + Underscores(n)
      invariant forall m: nat | m < n :: BASE + Underscores(m) in taken
      invariant left <= taken && forall s | s in taken && |s| >= |name| :: s in left
      decreases left
    {
      left := left - {name};
      name := name + "_";
      n := n + 1;
      assert Underscores(n) == Underscores(n - 1) + "_";
    }
  }

  lemma FreshIsPlain(name: string, taken: set<string>)
    requires FreshFor(name, taken)
    ensures Plain(name)
  {
    var n: nat :| name == BASE + Underscores(n) && name !in taken &&
                  forall m: nat | m < n :: BASE + Underscores(m) in taken;
    forall i | 0 <= i < |name| ensures name[i] != '%' && name[i] != '/' && name[i] != '~' {
      if i >= |BASE| { assert name[i] == Underscores(n)[i - |BASE|]; }
    }
  }

  // ---- the composed document ----

  function Members(v: Json, key: string): map<string, Json> {
    if v.Obj? && key in v.fields && v.fields[key].Obj? then v.fields[key].fields else map[]
  }

  /** Whether the caller's root is walked at all (claude/claude.go:477). */
  predicate Walked(caller: Json) { caller.Obj? && "$id" !in caller.fields }

  function Envelope(name: string, defs: map<string, Json>): map<string, Json> {
    map[
      "type" := Str("object"),
      "description" := Str("Report the state of this response to the current prompt."),
      "properties" := Obj(map[
        "state" := Obj(map["type" := Str("string"), "enum" := Arr([Str("waiting"), Str("completed")])]),
        "message" := Obj(map["type" := Str("string")]),
        "value" := Obj(map["$ref" := Str("#/$defs/" + name)])]),
      "required" := Arr([Str("state")]),
      "additionalProperties" := Scalar("false"),
      "$defs" := Obj(defs)]
  }

  lemma EnvelopeMembers(name: string, defs: map<string, Json>)
    ensures var e := Envelope(name, defs);
            "$schema" !in e && "definitions" !in e && "$defs" in e && e["$defs"] == Obj(defs)
  {
  }

  /** The caller as it reads after the walk. */
  function Walk(caller: Json, name: string): Json {
    if Walked(caller) then Rewrite(caller, SchemaNode(false), name) else caller
  }

  predicate IsObject(v: Json, key: string) { v.Obj? && key in v.fields && v.fields[key].Obj? }

  /** The root's members that are deleted, given whether it was walked and has legacy definitions. */
  function Deleted(walked: bool, legacy: bool): set<string> {
    {"$schema"} + (if walked then {"$defs"} else {}) + (if walked && legacy then {"definitions"} else {})
  }

  /** The caller's root after the walk and the deletions. */
  function Embedded(caller: Json, name: string): Json {
    var v := Walk(caller, name);
    if v.Obj? then Obj(v.fields - Deleted(Walked(caller), IsObject(v, "definitions"))) else v
  }

  /** The members of $defs as they read after the in-place walk. */
  function HoistedDefs(caller: Json, name: string): map<string, Json> {
    Members(Walk(caller, name), "$defs")
  }

  function Compose(caller: Json, name: string): Json {
    var v := Walk(caller, name);
    var base := Envelope(name, HoistedDefs(caller, name)[name := Embedded(caller, name)]);
    Obj(base + Kept(v, "$schema", true) + Kept(v, "definitions", Walked(caller) && IsObject(v, "definitions")))
  }

  function Kept(v: Json, key: string, keep: bool): map<string, Json> {
    if keep && v.Obj? && key in v.fields then map[key := v.fields[key]] else map[]
  }

  // ---- what the composition preserves ----

  /** The callers the redirection is for: an object without $id whose definition maps are objects. */
  ghost predicate Embeddable(caller: Json) {
    && Walked(caller)
    && ("$defs" in caller.fields ==> caller.fields["$defs"].Obj?)
    && ("definitions" in caller.fields ==> caller.fields["definitions"].Obj?)
  }

  /** Where the node at `tokens` of the caller lies in the composed document. */
  function Relocate(tokens: seq<string>, name: string): seq<string> {
    if tokens != [] && tokens[0] in HOISTED then tokens else ["$defs", name] + tokens
  }

  /** The rewritten image of the caller's node at `tokens`: the root loses its hoisted keys, and the
  definition map gains the private name. */
  function Image(caller: Json, tokens: seq<string>, target: Json, name: string): Json {
    var image := Rewrite(target, ModeAt(caller, SchemaNode(false), tokens), name);
    if tokens == [] then Embedded(caller, name)
    else if tokens == ["$defs"] && image.Obj? then Obj(image.fields[name := Embedded(caller, name)])
    else image
  }

  lemma ResolveStep(v: Json, key: string, tokens: seq<string>)
    requires v.Obj?
    ensures Resolve(v, [key] + tokens) == if key in v.fields then Resolve(v.fields[key], tokens) else None
  {
    assert ([key] + tokens)[1..] == tokens;
  }

  lemma ComposedMembers(caller: Json, name: string)
    requires Embeddable(caller)
    ensures var doc := Compose(caller, name);
            var walked := Rewrite(caller, SchemaNode(false), name);
            && doc.Obj? && walked.Obj? && walked.fields.Keys == caller.fields.Keys
            && "$defs" in doc.fields
            && doc.fields["$defs"] == Obj(Members(walked, "$defs")[name := Embedded(caller, name)])
            && Members(walked, "$defs").Keys == Members(caller, "$defs").Keys
            && ("definitions" in doc.fields <==> "definitions" in caller.fields)
            && ("definitions" in caller.fields ==> doc.fields["definitions"] == walked.fields["definitions"])
  {
    var walked := Rewrite(caller, SchemaNode(false), name);
    if "definitions" in caller.fields {
      assert Rewrite(caller.fields["definitions"], FieldMode(caller.fields, SchemaNode(false), "definitions"), name).Obj?;
    }
    EnvelopeMembers(name, HoistedDefs(caller, name)[name := Embedded(caller, name)]);
  }

  lemma EmbeddedAt(caller: Json, tokens: seq<string>, name: string)
    ensures Resolve(Compose(caller, name), ["$defs", name] + tokens) == Resolve(Embedded(caller, name), tokens)
  {
    var doc := Compose(caller, name);
    assert ["$defs", name] + tokens == ["$defs"] + ([name] + tokens);
    ResolveStep(doc, "$defs", [name] + tokens);
    ResolveStep(doc.fields["$defs"], name, tokens);
  }

  lemma EmbeddedMember(caller: Json, head: string, rest: seq<string>, name: string)
    requires Embeddable(caller)
    ensures Resolve(Embedded(caller, name), [head] + rest) ==
            if head in HOISTED || head == "$schema" then None
            else Resolve(Rewrite(caller, SchemaNode(false), name), [head] + rest)
  {
    var walked := Rewrite(caller, SchemaNode(false), name);
    if "definitions" in caller.fields {
      assert Rewrite(caller.fields["definitions"], FieldMode(caller.fields, SchemaNode(false), "definitions"), name).Obj?;
    }
    ResolveStep(Embedded(caller, name), head, rest);
    ResolveStep(walked, head, rest);
  }

  /** Below a hoisted key the composed document reads like the walked root, but for the private name. */
  lemma HoistedMember(caller: Json, tokens: seq<string>, name: string)
    requires Embeddable(caller)
    requires tokens != [] && tokens[0] in HOISTED && tokens != ["$defs"] && !(["$defs", name] <= tokens)
    ensures Resolve(Compose(caller, name), tokens) == Resolve(Rewrite(caller, SchemaNode(false), name), tokens)
  {
    var doc := Compose(caller, name);
    var walked := Rewrite(caller, SchemaNode(false), name);
    ComposedMembers(caller, name);
    var head, rest := tokens[0], tokens[1..];
    assert tokens == [head] + rest;
    ResolveStep(doc, head, rest);
    ResolveStep(walked, head, rest);
    if head == "$defs" {
      var key := rest[0];
      assert rest == [key] + rest[1..];
      assert ["$defs", key] <= tokens;
      ResolveStep(doc.fields["$defs"], key, rest[1..]);
      if "$defs" in walked.fields { ResolveStep(walked.fields["$defs"], key, rest[1..]); }
    }
  }

  lemma NameIsFree(caller: Json, tokens: seq<string>, name: string)
    requires Embeddable(caller) && name !in Members(caller, "$defs")
    requires ["$defs", name] <= tokens
    ensures Resolve(caller, tokens) == None
  {
    var rest := tokens[2..];
    assert tokens == ["$defs"] + ([name] + rest);
    ResolveStep(caller, "$defs", [name] + rest);
    if "$defs" in caller.fields { ResolveStep(caller.fields["$defs"], name, rest); }
  }

  lemma DefsImage(caller: Json, target: Json, name: string)
    requires Embeddable(caller) && name !in Members(caller, "$defs") && Resolve(caller, ["$defs"]) == Some(target)
    ensures Resolve(Compose(caller, name), ["$defs"]) == Some(Image(caller, ["$defs"], target, name))
  {
    ResolveRewrite(caller, SchemaNode(false), name, ["$defs"]);
    ComposedMembers(caller, name);
    assert ["$defs"] == ["$defs"] + [];
    ResolveStep(Compose(caller, name), "$defs", []);
    ResolveStep(Rewrite(caller, SchemaNode(false), name), "$defs", []);
  }

  /** Every node of the caller is found again at its new place, rewritten. */
  lemma PositionImage(caller: Json, tokens: seq<string>, target: Json, name: string)
    requires Embeddable(caller) && name !in Members(caller, "$defs")
    requires Resolve(caller, tokens) == Some(target)
    requires tokens == [] || tokens[0] != "$schema"
    ensures Resolve(Compose(caller, name), Relocate(tokens, name)) == Some(Image(caller, tokens, target, name))
  {
    hide Rewrite, Compose, Embedded, ModeAt, Walk;
    ResolveRewrite(caller, SchemaNode(false), name, tokens);
    if tokens == [] {
      EmbeddedAt(caller, tokens, name);
    } else if tokens == ["$defs"] {
      DefsImage(caller, target, name);
    } else if tokens[0] in HOISTED {
      if ["$defs", name] <= tokens { NameIsFree(caller, tokens, name); }
      HoistedMember(caller, tokens, name);
    } else {
      EmbeddedAt(caller, tokens, name);
      assert tokens == [tokens[0]] + tokens[1..];
      EmbeddedMember(caller, tokens[0], tokens[1..], name);
    }
  }

  /** Nothing is invented: what dangled still dangles, with two exceptions. A caller who guessed the private name finds
  the embedded root there, and the definition map is there even for a caller without one. */
  lemma DanglingStays(caller: Json, tokens: seq<string>, name: string)
    requires Embeddable(caller) && name !in Members(caller, "$defs")
    requires Resolve(caller, tokens) == None
    ensures Resolve(Compose(caller, name), Relocate(tokens, name)) ==
            if ["$defs", name] <= tokens then Resolve(Embedded(caller, name), tokens[2..])
            else if tokens == ["$defs"] then Some(Obj(map[name := Embedded(caller, name)]))
            else None
  {
    ResolveRewrite(caller, SchemaNode(false), name, tokens);
    if ["$defs", name] <= tokens {
      assert tokens == ["$defs", name] + tokens[2..];
      EmbeddedAt(caller, tokens[2..], name);
    } else if tokens == ["$defs"] {
      OnlyPrivate(caller, name);
    } else if tokens[0] in HOISTED {
      HoistedMember(caller, tokens, name);
    } else {
      EmbeddedAt(caller, tokens, name);
      assert tokens == [tokens[0]] + tokens[1..];
      EmbeddedMember(caller, tokens[0], tokens[1..], name);
    }
  }

  lemma OnlyPrivate(caller: Json, name: string)
    requires Embeddable(caller) && Resolve(caller, ["$defs"]) == None
    ensures Resolve(Compose(caller, name), ["$defs"]) == Some(Obj(map[name := Embedded(caller, name)]))
  {
    ComposedMembers(caller, name);
    assert ["$defs"] == ["$defs"] + [];
    ResolveStep(caller, "$defs", []);
    ResolveStep(Compose(caller, name), "$defs", []);
    assert Members(Rewrite(caller, SchemaNode(false), name), "$defs") == map[];
  }

  // ---- references ----

  /** What a caller can check of a reference: it does not reach a hoisted key by an encoded spelling,
  and does not point into the dialect keyword, which is hoisted too. */
  predicate LiteralHead(ref: string) {
    match RefTokens(ref)
    case None => true
    case Some(tokens) =>
      tokens == [] || (tokens[0] != "$schema" && (tokens[0] in HOISTED ==> !Redirects(ref)))
  }

  /** A reference the walk leaves alone does start at a hoisted key. */
  lemma UnredirectedHead(ref: string)
    requires Starts(ref, "#/") && !Redirects(ref) && RefTokens(ref).Some?
    ensures RefTokens(ref).value != [] && RefTokens(ref).value[0] in HOISTED
  {
    hide RefTokens;
    if ref == "#/$defs" || Starts(ref, "#/$defs/") {
      HeadIs(ref, "$defs", 7);
    } else {
      HeadIs(ref, "definitions", 13);
    }
  }

  lemma HeadIs(ref: string, head: string, n: nat)
    requires Plain(head) && n == 2 + |head| <= |ref| && ref[..n] == "#/" + head && (|ref| == n || ref[n] == '/')
    requires RefTokens(ref).Some?
    ensures RefTokens(ref).value != [] && RefTokens(ref).value[0] == head
  {
    hide RefTokens;
    assert ref == "#/" + head + ref[n..];
    PrependRef(head, ref[n..]);
  }

  lemma RedirectedShape(name: string, rest: string)
    ensures "#/$defs/" + name + rest == "#/" + "$defs" + ("/" + name + rest)
    ensures "#/" + name + rest == "#" + ("/" + name + rest)
  {
    assert "#/$defs/" == "#/" + "$defs" + "/";
    assert "#/" == "#" + "/";
  }

  /** A redirected reference names the relocated node. */
  lemma RedirectedTokens(ref: string, name: string)
    requires Redirects(ref) && Plain(name)
    ensures RefTokens(RewriteRef(ref, name)) ==
            match RefTokens(ref) case Some(t) => Some(["$defs", name] + t) case None => None
  {
    var rest := ref[1..];
    var inner := "/" + name + rest;
    RedirectedShape(name, rest);
    PrependRef(name, rest);
    PrependRef("$defs", inner);
    assert "#" + rest == ref;
    if RefTokens(ref).Some? {
      var t := RefTokens(ref).value;
      assert ["$defs"] + ([name] + t) == ["$defs", name] + t;
    }
  }

  /** The law the composition is for, with its exact domain. A resolving pointer reference still
  resolves, in the composed document, to the rewritten image of its old target if and only if its head
  is spelled literally; otherwise it dangles. */
  lemma ReferenceMeaning(caller: Json, ref: string, target: Json, name: string)
    requires Embeddable(caller) && FreshFor(name, Members(caller, "$defs").Keys)
    requires ref == "#" || Starts(ref, "#/")
    requires RefTokens(ref).Some? && Resolve(caller, RefTokens(ref).value) == Some(target)
    ensures RefTokens(RewriteRef(ref, name)).Some?
    ensures var found := Resolve(Compose(caller, name), RefTokens(RewriteRef(ref, name)).value);
            && (LiteralHead(ref) <==> found == Some(Image(caller, RefTokens(ref).value, target, name)))
            && (!LiteralHead(ref) ==> found == None)
  {
    FreshIsPlain(name, Members(caller, "$defs").Keys);
    var tokens := RefTokens(ref).value;
    if Redirects(ref) { RedirectedTokens(ref, name); } else { UnredirectedHead(ref); }
    if LiteralHead(ref) {
      PositionImage(caller, tokens, target, name);
    } else {
      EmbeddedAt(caller, tokens, name);
      assert tokens == [tokens[0]] + tokens[1..];
      EmbeddedMember(caller, tokens[0], tokens[1..], name);
    }
  }

  lemma DecodeDollar(rest: string)
    ensures PercentDecode("%24" + rest) ==
            match PercentDecode(rest) case Some(d) => Some("$" + d) case None => None
  {
    var s := "%24" + rest;
    assert s[0] == '%' && s[1] == '2' && s[2] == '4' && s[3..] == rest;
    assert HexValue('2') == Some(2) && HexValue('4') == Some(4);
  }

  lemma EncodedTokens()
    ensures RefTokens("#/%24defs") == Some(["$defs"])
  {
    hide PercentDecode, PointerTokens;
    DecodedPointer();
    assert "#/%24defs"[1..] == "/" + ("%24" + "defs");
    PointerToDefs();
  }

  lemma DecodedPointer()
    ensures PercentDecode("/" + ("%24" + "defs")) == Some("/$defs")
  {
    hide PercentDecode;
    DecodeNothing();
    assert "defs" + "" == "defs";
    DecodePrefix("defs", "");
    DecodeDollar("defs");
    DecodePrefix("/", "%24" + "defs");
    assert "/" + ("$" + "defs") == "/$defs";
  }

  lemma DecodeNothing()
    ensures PercentDecode("") == Some("")
  {
  }

  lemma PointerToDefs()
    ensures PointerTokens("/$defs") == Some(["$defs"])
  {
    PrependToken("$defs", "");
    assert "/" + "$defs" + "" == "/$defs" && ["$defs"] + [] == ["$defs"];
  }

  /** A percent-encoded spelling of "$defs" is outside the domain: this caller's reference resolves
  before the embedding and dangles after it. */
  lemma EncodedHeadDangles()
    ensures var ref := "#/%24defs";
            var caller := Obj(map["$defs" := Obj(map[]), "$ref" := Str(ref)]);
            && RefTokens(ref).Some? && Resolve(caller, RefTokens(ref).value) == Some(Obj(map[]))
            && RefTokens(RewriteRef(ref, BASE)).Some?
            && Resolve(Compose(caller, BASE), RefTokens(RewriteRef(ref, BASE)).value) == None
  {
    var ref := "#/%24defs";
    var caller := Obj(map["$defs" := Obj(map[]), "$ref" := Str(ref)]);
    EncodedTokens();
    ResolveStep(caller, "$defs", []);
    assert ["$defs"] + [] == ["$defs"];
    assert FreshFor(BASE, Members(caller, "$defs").Keys) by {
      assert Underscores(0) == "" && BASE + Underscores(0) == BASE;
    }
    assert Starts(ref, "#/") && !LiteralHead(ref) by { assert ref[2] == '%'; }
    ReferenceMeaning(caller, ref, Obj(map[]), BASE);
  }

  /** What a reference keyword holds in the composed document is the redirected reference, and data
  and nested resources are byte for byte the caller's. */
  lemma OccurrenceImage(caller: Json, tokens: seq<string>, found: Json, name: string)
    requires Embeddable(caller) && name !in Members(caller, "$defs")
    requires Resolve(caller, tokens) == Some(found) && tokens != [] && tokens[0] != "$schema"
    ensures var m := ModeAt(caller, SchemaNode(false), tokens);
            && (m.RefNode? && found.Str? ==>
                  Resolve(Compose(caller, name), Relocate(tokens, name)) == Some(Str(RewriteRef(found.text, name))))
            && (Untouched(m) ==> Resolve(Compose(caller, name), Relocate(tokens, name)) == Some(found))
  {
    PositionImage(caller, tokens, found, name);
    var m := ModeAt(caller, SchemaNode(false), tokens);
    if Untouched(m) { UntouchedIsIdentity(found, m, name); }
  }

  /** A caller with its own $id is a resource of its own and is embedded as it stands. */
  lemma OwnResourceIsKept(caller: Json, tokens: seq<string>, name: string)
    requires caller.Obj? && "$id" in caller.fields
    requires tokens != [] && tokens[0] != "$schema"
    ensures Resolve(Compose(caller, name), ["$defs", name] + tokens) == Resolve(caller, tokens)
  {
    EmbeddedAt(caller, tokens, name);
    assert tokens == [tokens[0]] + tokens[1..];
    ResolveStep(Embedded(caller, name), tokens[0], tokens[1..]);
    ResolveStep(caller, tokens[0], tokens[1..]);
  }
}
