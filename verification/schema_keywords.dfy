/** Which members of a caller's schema the composition changes, keyword by keyword (claude/claude.go:524-547). Schema
positions are read off the caller's own tree. */
module SchemaKeywords {
  import opened Wrappers
  import opened JsonPointer
  import opened Schema

  predicate NamesSchemas(key: string) { key in {"properties", "patternProperties", "dependentSchemas", "$defs", "definitions"} }
  predicate HoldsData(key: string) { key in {"const", "default", "enum", "examples"} }
  predicate HoldsReference(key: string) { key in {"$ref", "$dynamicRef", "$recursiveRef"} }

  predicate HasMember(v: Json, key: string) { v.Obj? && key in v.fields }

  /** From a schema the tokens lead to a schema: through any member that is not data, through the values of the five
  keywords that name schemas, and through arrays. */
  predicate SchemaPosition(v: Json, tokens: seq<string>)
    decreases |tokens|
  {
    if tokens == [] then true
    else
      match Child(v, tokens[0])
      case None => false
      case Some(next) =>
        if v.Obj? && NamesSchemas(tokens[0])
        then |tokens| > 1 && HasMember(next, tokens[1]) && SchemaPosition(next.fields[tokens[1]], tokens[2..])
        else !(v.Obj? && HoldsData(tokens[0])) && SchemaPosition(next, tokens[1..])
  }

  /** A schema above the node has its own "$id". */
  ghost predicate Within(v: Json, tokens: seq<string>) {
    exists i :: 0 <= i < |tokens| && Identified(v, tokens[..i])
  }

  predicate Identified(v: Json, tokens: seq<string>) {
    SchemaPosition(v, tokens) && Resolve(v, tokens).Some? && HasMember(Resolve(v, tokens).value, "$id")
  }

  /** A reference keyword of a schema that lies in the caller's own resource. */
  ghost predicate ReferencePosition(v: Json, tokens: seq<string>) {
    && tokens != [] && HoldsReference(tokens[|tokens| - 1]) && SchemaPosition(v, tokens[..|tokens| - 1])
    && Resolve(v, tokens[..|tokens| - 1]).Some? && Resolve(v, tokens[..|tokens| - 1]).value.Obj? && !Within(v, tokens)
  }

  // ---- the walk's modes, read as positions ----

  predicate Schematic(m: Mode) { m.SchemaNode? || m.RefNode? }
  predicate Foreign(m: Mode) { m.SchemaNode? && m.nested }

  function StepMode(v: Json, m: Mode, key: string): Mode { if v.Obj? then FieldMode(v.fields, m, key) else ItemMode(m) }

  lemma FieldExactly(fields: map<string, Json>, m: Mode, key: string)
    requires Schematic(m)
    ensures var nested, m' := Foreign(m) || "$id" in fields, FieldMode(fields, m, key);
            && (NamesSchemas(key) ==> m' == NameMap(nested))
            && (HoldsData(key) ==> m'.Data?)
            && (!NamesSchemas(key) && !HoldsData(key) ==> Schematic(m') && (Foreign(m') <==> nested))
            && (m'.RefNode? <==> HoldsReference(key) && !nested)
  {
  }

  lemma {:induction false} StaysOff(v: Json, m: Mode, tokens: seq<string>)
    requires m.Data?
    ensures ModeAt(v, m, tokens).Data?
  {
    if tokens != [] {
      match Child(v, tokens[0]) {
        case None =>
        case Some(next) => StaysOff(next, StepMode(v, m, tokens[0]), tokens[1..]);
      }
    }
  }

  lemma ModeStep(v: Json, m: Mode, tokens: seq<string>)
    requires tokens != [] && Resolve(v, tokens).Some?
    ensures Child(v, tokens[0]).Some?
    ensures Resolve(v, tokens) == Resolve(Child(v, tokens[0]).value, tokens[1..])
    ensures ModeAt(v, m, tokens) == ModeAt(Child(v, tokens[0]).value, StepMode(v, m, tokens[0]), tokens[1..])
  {
  }

  /** An "$id" on the way is the root's, or lies below the next token, or below the next two where they name a schema. */
  lemma WithinStep(v: Json, tokens: seq<string>)
    requires tokens != [] && Child(v, tokens[0]).Some?
    requires !(v.Obj? && (NamesSchemas(tokens[0]) || HoldsData(tokens[0])))
    ensures Within(v, tokens) <==> HasMember(v, "$id") || Within(Child(v, tokens[0]).value, tokens[1..])
  {
    var next, rest := Child(v, tokens[0]).value, tokens[1..];
    assert tokens[..0] == [] && Identified(v, tokens[..0]) <==> HasMember(v, "$id");
    forall i | 0 < i < |tokens| ensures Identified(v, tokens[..i]) <==> Identified(next, rest[..i - 1]) {
      assert tokens[..i][1..] == rest[..i - 1] && tokens[..i][0] == tokens[0];
    }
    if Within(v, tokens) {
      var i :| 0 <= i < |tokens| && Identified(v, tokens[..i]);
      if i > 0 { assert Identified(next, rest[..i - 1]); }
    }
    if Within(next, rest) {
      var i :| 0 <= i < |rest| && Identified(next, rest[..i]);
      assert Identified(v, tokens[..i + 1]);
    }
    if HasMember(v, "$id") { assert Identified(v, tokens[..0]); }
  }

  lemma WithinNamed(v: Json, tokens: seq<string>)
    requires |tokens| > 1 && v.Obj? && tokens[0] in v.fields && NamesSchemas(tokens[0]) && HasMember(v.fields[tokens[0]], tokens[1])
    ensures Within(v, tokens) <==> HasMember(v, "$id") || Within(v.fields[tokens[0]].fields[tokens[1]], tokens[2..])
  {
    var next, rest := v.fields[tokens[0]].fields[tokens[1]], tokens[2..];
    assert tokens[..0] == [] && Identified(v, tokens[..0]) <==> HasMember(v, "$id");
    assert !SchemaPosition(v, tokens[..1]) by { assert tokens[..1][0] == tokens[0]; }
    forall i | 1 < i < |tokens| ensures Identified(v, tokens[..i]) <==> Identified(next, rest[..i - 2]) {
      var cut := tokens[..i];
      assert cut[0] == tokens[0] && cut[1] == tokens[1] && cut[2..] == rest[..i - 2] && cut[1..][1..] == rest[..i - 2];
      ResolveTwo(v, cut);
    }
    if Within(v, tokens) {
      var i :| 0 <= i < |tokens| && Identified(v, tokens[..i]);
      if i > 1 { assert Identified(next, rest[..i - 2]); }
    }
    if Within(next, rest) {
      var i :| 0 <= i < |rest| && Identified(next, rest[..i]);
      assert Identified(v, tokens[..i + 2]);
    }
    if HasMember(v, "$id") { assert Identified(v, tokens[..0]); }
  }

  lemma ResolveTwo(v: Json, tokens: seq<string>)
    requires |tokens| > 1 && v.Obj? && tokens[0] in v.fields && HasMember(v.fields[tokens[0]], tokens[1])
    ensures Resolve(v, tokens) == Resolve(v.fields[tokens[0]].fields[tokens[1]], tokens[2..])
  {
    assert tokens[1..][0] == tokens[1] && tokens[1..][1..] == tokens[2..];
  }

  lemma WithinNone(v: Json)
    ensures !Within(v, [])
  {
  }

  /** The walk is at a schema exactly at the schema positions, and in a foreign resource exactly below an "$id". */
  lemma {:induction false} ModeExactly(v: Json, m: Mode, tokens: seq<string>)
    requires Schematic(m) && Resolve(v, tokens).Some?
    ensures Schematic(ModeAt(v, m, tokens)) <==> SchemaPosition(v, tokens)
    ensures SchemaPosition(v, tokens) ==> (Foreign(ModeAt(v, m, tokens)) <==> Foreign(m) || Within(v, tokens))
    decreases |tokens|
  {
    hide Within;
    if tokens == [] {
      WithinNone(v);
    } else {
      ModeStep(v, m, tokens);
      var next := Child(v, tokens[0]).value;
      if v.Obj? {
        FieldExactly(v.fields, m, tokens[0]);
        if NamesSchemas(tokens[0]) {
          NamedExactly(v, m, tokens);
        } else if HoldsData(tokens[0]) {
          StaysOff(next, StepMode(v, m, tokens[0]), tokens[1..]);
        } else {
          WithinStep(v, tokens);
          ModeExactly(next, StepMode(v, m, tokens[0]), tokens[1..]);
        }
      } else {
        WithinStep(v, tokens);
        ModeExactly(next, StepMode(v, m, tokens[0]), tokens[1..]);
      }
    }
  }

  lemma {:induction false} NamedExactly(v: Json, m: Mode, tokens: seq<string>)
    requires Schematic(m) && tokens != [] && Resolve(v, tokens).Some? && v.Obj? && NamesSchemas(tokens[0])
    ensures Schematic(ModeAt(v, m, tokens)) <==> SchemaPosition(v, tokens)
    ensures SchemaPosition(v, tokens) ==> (Foreign(ModeAt(v, m, tokens)) <==> Foreign(m) || Within(v, tokens))
    decreases |tokens|, 0
  {
    hide Within;
    FieldExactly(v.fields, m, tokens[0]);
    ModeStep(v, m, tokens);
    var names, rest := v.fields[tokens[0]], tokens[1..];
    var m' := FieldMode(v.fields, m, tokens[0]);
    if rest != [] {
      ModeStep(names, m', rest);
      if names.Obj? {
        assert rest[1..] == tokens[2..];
        ModeExactly(names.fields[rest[0]], SchemaNode(m'.nested), tokens[2..]);
        WithinNamed(v, tokens);
      } else {
        StaysOff(Child(names, rest[0]).value, Data, rest[1..]);
      }
    }
  }

  lemma {:induction false} ModeAtLast(v: Json, m: Mode, tokens: seq<string>)
    requires tokens != [] && Resolve(v, tokens).Some?
    ensures var init, last := tokens[..|tokens| - 1], tokens[|tokens| - 1];
            && Resolve(v, init).Some? && Child(Resolve(v, init).value, last).Some?
            && ModeAt(v, m, tokens) == StepMode(Resolve(v, init).value, ModeAt(v, m, init), last)
  {
    var init, last := tokens[..|tokens| - 1], tokens[|tokens| - 1];
    ModeStep(v, m, tokens);
    if init == [] {
      assert tokens[1..] == [];
    } else {
      var next, rest := Child(v, tokens[0]).value, tokens[1..];
      ModeAtLast(next, StepMode(v, m, tokens[0]), rest);
      assert init[0] == tokens[0] && init[1..] == rest[..|rest| - 1];
    }
  }

  lemma WithinLast(v: Json, tokens: seq<string>)
    requires tokens != []
    ensures var init := tokens[..|tokens| - 1];
            Within(v, tokens) <==> Within(v, init) || Identified(v, init)
  {
    var init := tokens[..|tokens| - 1];
    assert forall i | 0 <= i < |init| :: tokens[..i] == init[..i];
    if Within(v, tokens) {
      var i :| 0 <= i < |tokens| && Identified(v, tokens[..i]);
      if i < |init| { assert Identified(v, init[..i]); }
    }
    if Within(v, init) {
      var i :| 0 <= i < |init| && Identified(v, init[..i]);
      assert Identified(v, tokens[..i]);
    }
  }

  /** The walk redirects exactly at the reference positions. */
  lemma ReferenceExactly(v: Json, tokens: seq<string>)
    requires Resolve(v, tokens).Some?
    ensures ModeAt(v, SchemaNode(false), tokens).RefNode? <==> ReferencePosition(v, tokens)
  {
    hide Within;
    if tokens != [] {
      var init, last := tokens[..|tokens| - 1], tokens[|tokens| - 1];
      var m := ModeAt(v, SchemaNode(false), init);
      ModeAtLast(v, SchemaNode(false), tokens);
      ModeExactly(v, SchemaNode(false), init);
      WithinLast(v, tokens);
      var parent := Resolve(v, init).value;
      if parent.Obj? && Schematic(m) { FieldExactly(parent.fields, m, last); }
    }
  }

  // ---- what the composed document holds ----

  /** Where the caller's node lies in the composed document: definitions and the dialect stay at the root. */
  function Place(tokens: seq<string>, name: string): seq<string> {
    if tokens != [] && (tokens[0] == "$defs" || tokens[0] == "definitions" || tokens[0] == "$schema") then tokens
    else ["$defs", name] + tokens
  }

  /** The reference as the composed document spells it. */
  function Redirected(ref: string, name: string): string {
    if ref == "#" then "#/$defs/" + name
    else if "#/" <= ref && ref != "#/$defs" && ref != "#/definitions" && !("#/$defs/" <= ref) && !("#/definitions/" <= ref)
    then "#/$defs/" + name + "/" + ref[2..]
    else ref
  }

  lemma RedirectedIsRewritten(ref: string, name: string)
    ensures RewriteRef(ref, name) == Redirected(ref, name)
  {
    if "#/" <= ref { assert ref[1..] == "/" + ref[2..]; }
    if ref == "#" { assert "#/$defs/" + name + "" == "#/$defs/" + name; }
  }

  lemma DialectMember(caller: Json, tokens: seq<string>, name: string)
    requires Embeddable(caller) && tokens != [] && tokens[0] == "$schema"
    ensures Resolve(Compose(caller, name), tokens) == Resolve(Rewrite(caller, SchemaNode(false), name), tokens)
  {
    hide Rewrite, Envelope;
    var walked := Rewrite(caller, SchemaNode(false), name);
    assert walked.Obj? && walked.fields.Keys == caller.fields.Keys by { WalkedKeys(caller, name); }
    EnvelopeMembers(name, HoistedDefs(caller, name)[name := Embedded(caller, name)]);
    assert tokens == [tokens[0]] + tokens[1..];
    ResolveStep(Compose(caller, name), tokens[0], tokens[1..]);
    ResolveStep(walked, tokens[0], tokens[1..]);
  }

  lemma WalkedKeys(caller: Json, name: string)
    requires caller.Obj?
    ensures var walked := Rewrite(caller, SchemaNode(false), name); walked.Obj? && walked.fields.Keys == caller.fields.Keys
  {
  }

  lemma Placed(caller: Json, tokens: seq<string>, found: Json, name: string)
    requires Embeddable(caller) && name !in Members(caller, "$defs") && tokens != [] && tokens != ["$defs"]
    requires Resolve(caller, tokens) == Some(found)
    ensures Resolve(Compose(caller, name), Place(tokens, name)) ==
            Some(Rewrite(found, ModeAt(caller, SchemaNode(false), tokens), name))
  {
    hide Rewrite, Compose, ModeAt;
    if tokens[0] == "$schema" {
      DialectMember(caller, tokens, name);
      ResolveRewrite(caller, SchemaNode(false), name, tokens);
    } else {
      PositionImage(caller, tokens, found, name);
    }
  }

  /** Every text and every number of the caller is found in the composed document at its place. A text is redirected
  if and only if it stands under a reference keyword of a schema in the caller's own resource; everything else is as it
  was. */
  lemma LeafExactly(caller: Json, tokens: seq<string>, found: Json, name: string)
    requires Embeddable(caller) && name !in Members(caller, "$defs")
    requires Resolve(caller, tokens) == Some(found) && (found.Str? || found.Scalar?)
    ensures Resolve(Compose(caller, name), Place(tokens, name)) ==
            Some(if found.Str? && ReferencePosition(caller, tokens) then Str(Redirected(found.text, name)) else found)
  {
    hide Compose, ModeAt, Redirected, ReferencePosition;
    assert tokens != [] by { assert caller.Obj?; }
    if tokens == ["$defs"] { DefsIsObject(caller); }
    Placed(caller, tokens, found, name);
    ReferenceExactly(caller, tokens);
    if found.Str? { RedirectedIsRewritten(found.text, name); }
  }

  lemma DefsIsObject(caller: Json)
    requires Embeddable(caller) && Resolve(caller, ["$defs"]).Some?
    ensures Resolve(caller, ["$defs"]).value.Obj?
  {
    assert ["$defs"] == ["$defs"] + [];
    ResolveStep(caller, "$defs", []);
  }

  /** Objects keep their members and arrays their length. */
  lemma ContainerExactly(caller: Json, tokens: seq<string>, found: Json, name: string)
    requires Embeddable(caller) && name !in Members(caller, "$defs") && tokens != [] && tokens != ["$defs"]
    requires Resolve(caller, tokens) == Some(found) && (found.Obj? || found.Arr?)
    ensures var image := Resolve(Compose(caller, name), Place(tokens, name));
            && image.Some?
            && (found.Obj? ==> image.value.Obj? && image.value.fields.Keys == found.fields.Keys)
            && (found.Arr? ==> image.value.Arr? && |image.value.items| == |found.items|)
  {
    hide Compose, ModeAt;
    Placed(caller, tokens, found, name);
  }

  /** What a schema holds under "const", "default", "enum" or "examples", and everything below it, is the caller's. */
  lemma DataIsKept(caller: Json, tokens: seq<string>, key: string, below: seq<string>, found: Json, name: string)
    requires Embeddable(caller) && name !in Members(caller, "$defs")
    requires SchemaPosition(caller, tokens) && Resolve(caller, tokens).Some? && Resolve(caller, tokens).value.Obj?
    requires key in {"const", "default", "enum", "examples"}
    requires Resolve(caller, tokens + [key] + below) == Some(found)
    ensures Resolve(Compose(caller, name), Place(tokens + [key] + below, name)) == Some(found)
  {
    hide Compose, ModeAt, Resolve;
    var all := tokens + [key] + below;
    assert all != ["$defs"] by { assert key in all; }
    ModeExactly(caller, SchemaNode(false), tokens);
    ModeBelow(caller, SchemaNode(false), tokens, key, below);
    Placed(caller, all, found, name);
    UntouchedIsIdentity(found, ModeAt(caller, SchemaNode(false), all), name);
  }

  lemma {:induction false} ModeBelow(v: Json, m: Mode, tokens: seq<string>, key: string, below: seq<string>)
    requires Resolve(v, tokens).Some? && Resolve(v, tokens).value.Obj? && HoldsData(key)
    requires Resolve(v, tokens + [key] + below).Some? && Schematic(ModeAt(v, m, tokens))
    ensures ModeAt(v, m, tokens + [key] + below).Data?
    decreases |tokens|
  {
    var all := tokens + [key] + below;
    ModeStep(v, m, all);
    if tokens == [] {
      FieldExactly(v.fields, m, key);
      assert all[0] == key;
      StaysOff(Child(v, key).value, StepMode(v, m, key), all[1..]);
    } else {
      assert all[0] == tokens[0] && all[1..] == tokens[1..] + [key] + below;
      ModeBelow(Child(v, tokens[0]).value, StepMode(v, m, tokens[0]), tokens[1..], key, below);
    }
  }

  /** Below a schema with its own "$id" everything is the caller's. */
  lemma ResourceIsKept(caller: Json, tokens: seq<string>, found: Json, name: string)
    requires Embeddable(caller) && name !in Members(caller, "$defs")
    requires SchemaPosition(caller, tokens) && Within(caller, tokens) && Resolve(caller, tokens) == Some(found)
    ensures Resolve(Compose(caller, name), Place(tokens, name)) == Some(found)
  {
    hide Compose, ModeAt, Within;
    ModeExactly(caller, SchemaNode(false), tokens);
    WithinNone(caller);
    assert tokens != ["$defs"] by { NotAlone(caller); }
    Placed(caller, tokens, found, name);
    UntouchedIsIdentity(found, ModeAt(caller, SchemaNode(false), tokens), name);
  }

  lemma NotAlone(v: Json)
    ensures v.Obj? ==> !SchemaPosition(v, ["$defs"])
  {
  }

  /** A text under a reference keyword of a schema outside every "$id" is redirected. */
  lemma ReferenceIsRedirected(caller: Json, tokens: seq<string>, key: string, text: string, name: string)
    requires Embeddable(caller) && name !in Members(caller, "$defs")
    requires SchemaPosition(caller, tokens) && Resolve(caller, tokens).Some? && HasMember(Resolve(caller, tokens).value, key)
    requires key in {"$ref", "$dynamicRef", "$recursiveRef"} && Resolve(caller, tokens).value.fields[key] == Str(text)
    requires !Within(caller, tokens) && !HasMember(Resolve(caller, tokens).value, "$id")
    ensures Resolve(Compose(caller, name), Place(tokens + [key], name)) == Some(Str(Redirected(text, name)))
  {
    hide Compose, Redirected, Within;
    var all := tokens + [key];
    assert all[..|all| - 1] == tokens;
    ResolveLast(caller, tokens, key);
    WithinLast(caller, all);
    LeafExactly(caller, all, Str(text), name);
  }

  lemma {:induction false} ResolveLast(v: Json, tokens: seq<string>, key: string)
    requires Resolve(v, tokens).Some?
    ensures Resolve(v, tokens + [key]) == Child(Resolve(v, tokens).value, key)
    decreases |tokens|
  {
    var all := tokens + [key];
    if tokens == [] {
      assert all[1..] == [];
    } else {
      assert all[0] == tokens[0] && all[1..] == tokens[1..] + [key];
      ResolveLast(Child(v, tokens[0]).value, tokens[1..], key);
    }
  }

  /** The values under the five keywords that name schemas are schemas, and other members that are not data are too. */
  lemma {:induction false} NamedIsSchema(v: Json, tokens: seq<string>, key: string, member: string)
    requires SchemaPosition(v, tokens) && Resolve(v, tokens).Some? && HasMember(Resolve(v, tokens).value, key)
    requires key in {"properties", "patternProperties", "dependentSchemas", "$defs", "definitions"}
    requires HasMember(Resolve(v, tokens).value.fields[key], member)
    ensures SchemaPosition(v, tokens + [key, member])
    decreases |tokens|
  {
    var all := tokens + [key, member];
    if tokens == [] {
      assert all[0] == key && all[1] == member && all[2..] == [];
    } else if v.Obj? && NamesSchemas(tokens[0]) {
      ResolveTwo(v, tokens);
      assert all[0] == tokens[0] && all[1] == tokens[1] && all[2..] == tokens[2..] + [key, member];
      NamedIsSchema(v.fields[tokens[0]].fields[tokens[1]], tokens[2..], key, member);
    } else {
      assert all[0] == tokens[0] && all[1..] == tokens[1..] + [key, member];
      NamedIsSchema(Child(v, tokens[0]).value, tokens[1..], key, member);
    }
  }

  // ---- the envelope ----

  lemma EnvelopeValue(name: string, defs: map<string, Json>)
    ensures var e := Envelope(name, defs);
            && "properties" in e && e["properties"].Obj? && "value" in e["properties"].fields
            && e["properties"].fields["value"] == Obj(map["$ref" := Str("#/$defs/" + name)])
  {
  }

  lemma EnvelopeRefers(caller: Json, name: string)
    ensures Resolve(Compose(caller, name), ["properties", "value", "$ref"]) == Some(Str("#/$defs/" + name))
  {
    hide Walk, Embedded, HoistedDefs, Envelope;
    var doc := Compose(caller, name);
    EnvelopeValue(name, HoistedDefs(caller, name)[name := Embedded(caller, name)]);
    assert ["properties", "value", "$ref"] == ["properties"] + ["value", "$ref"] && ["value", "$ref"] == ["value"] + ["$ref"];
    assert ["$ref"] == ["$ref"] + [];
    ResolveStep(doc, "properties", ["value", "$ref"]);
    ResolveStep(doc.fields["properties"], "value", ["$ref"]);
    ResolveStep(doc.fields["properties"].fields["value"], "$ref", []);
  }

  /** The envelope's "value" refers to the private definition, and that is the caller's root. */
  lemma ValueIsTheCaller(caller: Json, name: string)
    requires Plain(name)
    ensures exists ref :: Resolve(Compose(caller, name), ["properties", "value", "$ref"]) == Some(Str(ref))
              && RefTokens(ref) == Some(["$defs", name])
    ensures Resolve(Compose(caller, name), ["$defs", name]) == Some(Embedded(caller, name))
  {
    hide Compose, RefTokens, Embedded;
    EnvelopeRefers(caller, name);
    NameTokens(name);
    EmbeddedAt(caller, [], name);
    assert ["$defs", name] + [] == ["$defs", name];
  }

  lemma NameTokens(name: string)
    requires Plain(name)
    ensures RefTokens("#/$defs/" + name) == Some(["$defs", name])
  {
    HashTokens();
    PrependRef(name, "");
    assert "#/" + name + "" == "#" + ("/" + name) && "#" + "" == "#";
    PrependRef("$defs", "/" + name);
    assert "#/" + "$defs" + ("/" + name) == "#/$defs/" + name;
    assert ["$defs"] + ([name] + []) == ["$defs", name];
  }

  lemma HashTokens()
    ensures RefTokens("#") == Some([])
  {
    assert "#"[1..] == "";
  }

  /** The envelope asks for a state, one of two, and allows a message and a value and nothing else. */
  lemma EnvelopeAsks(caller: Json, name: string)
    ensures var doc := Compose(caller, name);
            && doc.Obj? && {"type", "required", "additionalProperties", "properties"} <= doc.fields.Keys
            && doc.fields["type"] == Str("object") && doc.fields["required"] == Arr([Str("state")])
            && doc.fields["additionalProperties"] == Scalar("false") && doc.fields["properties"].Obj?
            && doc.fields["properties"].fields.Keys == {"state", "message", "value"}
            && doc.fields["properties"].fields["state"] ==
               Obj(map["type" := Str("string"), "enum" := Arr([Str("waiting"), Str("completed")])])
  {
    hide Walk, Embedded, HoistedDefs, Envelope;
    EnvelopeFixed(name, HoistedDefs(caller, name)[name := Embedded(caller, name)]);
  }

  lemma EnvelopeFixed(name: string, defs: map<string, Json>)
    ensures var e := Envelope(name, defs);
            && {"type", "required", "additionalProperties", "properties"} <= e.Keys
            && e["type"] == Str("object") && e["required"] == Arr([Str("state")])
            && e["additionalProperties"] == Scalar("false") && e["properties"].Obj?
            && e["properties"].fields.Keys == {"state", "message", "value"}
            && e["properties"].fields["state"] ==
               Obj(map["type" := Str("string"), "enum" := Arr([Str("waiting"), Str("completed")])])
  {
  }
}
