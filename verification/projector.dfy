/** The transcript projector (codex/events.go:14-643). Native text and reasoning items may overlap; the transcript
shows at most one part of each kind at a time. What was emitted is judged by a separate reader of the log, the
Display, and the projector's fields are tied to what that reader has seen. */
module Projector {
  import opened Wrappers

  datatype Kind = Text | Reasoning
  datatype Key = Key(kind: Kind, id: string)
  datatype Part = Part(ordinal: nat, text: string, done: bool, visible: bool)

  /** A step is named by the native id that opened it, or by its position in the turn. */
  datatype Message = Native(id: string) | Nth(turn: string, response: nat)

  datatype Event =
    | StepStarted(message: Message)
    | StepStreamed(message: Message)
    | StepEnded(message: Message)
    | PartStarted(key: Key, message: Message, ordinal: nat)
    | PartDelta(kind: Kind, message: Message, ordinal: nat, delta: string)
    | PartEnded(key: Key, message: Message, ordinal: nat, text: string)
    | ToolCalled(id: string, message: Message)
    | ToolSettled(id: string, message: Message)
    | RetryScheduled(message: Message)

  // ---- a reader of the transcript ----

  datatype Shown = Shown(id: string, ordinal: nat, deltas: string)
  /** What one kind of part has shown: the open part, the last ordinal opened in the step, and all ids so far. */
  datatype Lane = Lane(open: Option<Shown>, last: int, started: set<string>, ended: map<string, string>)
  datatype Display = Display(ok: bool, step: Option<Message>, streamed: bool, text: Lane, reasoning: Lane)

  const EMPTY := Lane(None, -1, {}, map[])
  const BLANK := Display(true, None, false, EMPTY, EMPTY)

  function LaneOf(d: Display, kind: Kind): Lane { if kind.Text? then d.text else d.reasoning }
  function WithLane(d: Display, kind: Kind, l: Lane): Display {
    if kind.Text? then d.(text := l) else d.(reasoning := l)
  }

  /** Does the transcript so far permit this event? */
  predicate Permits(d: Display, e: Event) {
    match e
    case StepStarted(_) => d.step.None?
    case StepStreamed(m) => d.step == Some(m) && !d.streamed
    case StepEnded(m) => d.step == Some(m) && d.text.open.None? && d.reasoning.open.None?
    case PartStarted(k, m, ordinal) =>
      d.step == Some(m) && LaneOf(d, k.kind).open.None? && LaneOf(d, k.kind).last < ordinal &&
      k.id !in LaneOf(d, k.kind).started
    case PartDelta(kind, m, ordinal, _) =>
      d.step == Some(m) && LaneOf(d, kind).open.Some? && LaneOf(d, kind).open.value.ordinal == ordinal
    case PartEnded(k, m, ordinal, _) =>
      d.step == Some(m) && LaneOf(d, k.kind).open.Some? && LaneOf(d, k.kind).open.value.ordinal == ordinal &&
      LaneOf(d, k.kind).open.value.id == k.id
    case ToolCalled(_, m) => d.step == Some(m)
    case ToolSettled(_, m) => d.step == Some(m)
    case RetryScheduled(m) => d.step == Some(m)
  }

  function Show(d: Display, e: Event): Display {
    if !d.ok || !Permits(d, e) then d.(ok := false)
    else
      match e
      case StepStarted(m) =>
        d.(step := Some(m), streamed := false, text := d.text.(last := -1), reasoning := d.reasoning.(last := -1))
      case StepStreamed(_) => d.(streamed := true)
      case StepEnded(_) => d.(step := None, streamed := false)
      case PartStarted(k, _, ordinal) =>
        var l := LaneOf(d, k.kind);
        WithLane(d, k.kind, Lane(Some(Shown(k.id, ordinal, "")), ordinal, l.started + {k.id}, l.ended))
      case PartDelta(kind, _, _, delta) =>
        var l := LaneOf(d, kind);
        WithLane(d, kind, l.(open := Some(l.open.value.(deltas := l.open.value.deltas + delta))))
      case PartEnded(k, _, _, text) =>
        var l := LaneOf(d, k.kind);
        WithLane(d, k.kind, l.(open := None, ended := l.ended[k.id := text]))
      case _ => d
  }

  function Watch(log: seq<Event>): Display {
    if log == [] then BLANK else Show(Watch(log[..|log| - 1]), log[|log| - 1])
  }

  lemma WatchNext(log: seq<Event>, e: Event)
    ensures Watch(log + [e]) == Show(Watch(log), e)
  {
    assert (log + [e])[..|log|] == log;
  }

  /** A reader that has seen no violation saw none before: every prefix of the log was in order. */
  lemma {:induction false} OkBefore(log: seq<Event>, n: nat)
    requires n <= |log| && Watch(log).ok
    ensures Watch(log[..n]).ok && (n < |log| ==> Permits(Watch(log[..n]), log[n]))
  {
    if n < |log| {
      var init := log[..|log| - 1];
      if n < |init| {
        OkBefore(init, n);
        assert init[..n] == log[..n];
      } else {
        assert log[..n] == init;
      }
    } else {
      assert log[..n] == log;
    }
  }

  // ---- one kind of part, against what was shown of it ----

  ghost predicate Lined(parts: map<Key, Part>, q: seq<Key>, kind: Kind, bound: nat) {
    && (forall i | 0 <= i < |q| :: q[i] in parts && q[i].kind == kind && parts[q[i]].ordinal < bound)
    && (forall i, j | 0 <= i < j < |q| :: parts[q[i]].ordinal < parts[q[j]].ordinal)
    && (forall i | 0 < i < |q| :: !parts[q[i]].visible)
  }

  /** Every part either waits in the queue or has ended with its text. */
  ghost predicate Settled(parts: map<Key, Part>, q: seq<Key>, kind: Kind, l: Lane) {
    && (forall k | k in parts && k.kind == kind && k !in q :: parts[k].done && k.id in l.ended && l.ended[k.id] == parts[k].text)
    && (forall k | k in q :: k.id !in l.ended && (k in parts && !parts[k].visible ==> k.id !in l.started))
    && (forall id | id in l.started :: Key(kind, id) in parts)
    && (forall id | id in l.ended :: Key(kind, id) in parts)
  }

  /** The head of the queue is what is open, with exactly its deltas shown while it is unfinished. */
  ghost predicate HeadShown(parts: map<Key, Part>, q: seq<Key>, l: Lane) {
    if q == [] || q[0] !in parts || !parts[q[0]].visible
    then l.open.None? && (forall i | 0 <= i < |q| && q[i] in parts :: l.last < parts[q[i]].ordinal)
    else
      var p := parts[q[0]];
      && l.open.Some? && l.open.value.id == q[0].id && l.open.value.ordinal == p.ordinal == l.last
      && (!p.done ==> l.open.value.deltas == p.text)
  }

  /** While the queue is being flushed. */
  ghost predicate Loose(parts: map<Key, Part>, q: seq<Key>, kind: Kind, bound: nat, l: Lane) {
    Lined(parts, q, kind, bound) && Settled(parts, q, kind, l) && HeadShown(parts, q, l) && l.last < bound
  }

  /** At rest the head, if any, is visible and unfinished. */
  ghost predicate Tight(parts: map<Key, Part>, q: seq<Key>, kind: Kind, bound: nat, l: Lane) {
    Loose(parts, q, kind, bound, l) && (q != [] ==> parts[q[0]].visible && !parts[q[0]].done)
  }

  ghost predicate SameKind(parts: map<Key, Part>, parts': map<Key, Part>, kind: Kind) {
    forall k: Key | k.kind == kind :: (k in parts <==> k in parts') && (k in parts ==> parts[k] == parts'[k])
  }

  lemma TightElsewhere(parts: map<Key, Part>, parts': map<Key, Part>, q: seq<Key>, kind: Kind, bound: nat,
                       bound': nat, l: Lane)
    requires Tight(parts, q, kind, bound, l) && SameKind(parts, parts', kind) && bound <= bound'
    ensures Tight(parts', q, kind, bound', l)
  {
    assert forall i | 0 <= i < |q| :: q[i].kind == kind;
  }

  /** A finished part is never touched again. */
  ghost predicate Frozen(parts: map<Key, Part>, parts': map<Key, Part>) {
    forall k | k in parts :: k in parts' && parts'[k].ordinal == parts[k].ordinal &&
      (parts[k].done ==> parts'[k].done && parts'[k].text == parts[k].text)
  }

  function Other(kind: Kind): Kind { if kind.Text? then Reasoning else Text }

  /** With an empty queue the ordinals may start over. */
  lemma FreshStep(parts: map<Key, Part>, kind: Kind, bound: nat, l: Lane)
    requires Tight(parts, [], kind, bound, l)
    ensures l.open.None? && Tight(parts, [], kind, 0, l.(last := -1))
  {
  }

  // ---- the steps of a flush ----

  /** The head becomes visible. */
  lemma HeadStarts(parts: map<Key, Part>, q: seq<Key>, kind: Kind, bound: nat, l: Lane)
    requires Loose(parts, q, kind, bound, l) && q != [] && !parts[q[0]].visible
    ensures var k, p := q[0], parts[q[0]];
            var l' := Lane(Some(Shown(k.id, p.ordinal, if p.done then "" else p.text)), p.ordinal, l.started + {k.id}, l.ended);
            Loose(parts[k := p.(visible := true)], q, kind, bound, l') && k.id !in l.started && l.open.None? && l.last < p.ordinal
  {
  }

  lemma TailOf(q: seq<Key>)
    requires q != []
    ensures forall i | 0 <= i < |q[1..]| :: q[1..][i] == q[i + 1]
    ensures forall k | k in q :: k == q[0] || k in q[1..]
  {
    assert q == [q[0]] + q[1..];
  }

  lemma TailSettled(parts: map<Key, Part>, q: seq<Key>, kind: Kind, bound: nat, l: Lane)
    requires Loose(parts, q, kind, bound, l) && q != [] && parts[q[0]].done
    ensures Settled(parts, q[1..], kind, l.(open := None, ended := l.ended[q[0].id := parts[q[0]].text]))
  {
    TailOf(q);
    forall k | k in q[1..] ensures k in q && k.id != q[0].id {
      var i :| 0 <= i < |q[1..]| && q[1..][i] == k;
      assert parts[q[0]].ordinal < parts[q[i + 1]].ordinal && q[0].kind == q[i + 1].kind;
    }
    assert q[0].kind == kind;
  }

  /** A finished head leaves the queue. */
  lemma HeadEnds(parts: map<Key, Part>, q: seq<Key>, kind: Kind, bound: nat, l: Lane)
    requires Loose(parts, q, kind, bound, l) && q != [] && parts[q[0]].visible && parts[q[0]].done
    ensures Loose(parts, q[1..], kind, bound, l.(open := None, ended := l.ended[q[0].id := parts[q[0]].text]))
  {
    TailOf(q);
    TailSettled(parts, q, kind, bound, l);
    forall i | 0 <= i < |q[1..]| ensures parts[q[0]].ordinal < parts[q[1..][i]].ordinal && !parts[q[1..][i]].visible {
      assert q[1..][i] == q[i + 1];
    }
  }

  lemma HeadOpen(parts: map<Key, Part>, q: seq<Key>, kind: Kind, bound: nat, l: Lane)
    requires Loose(parts, q, kind, bound, l) && q != [] && parts[q[0]].visible
    ensures l.open.Some? && l.open.value.id == q[0].id && l.open.value.ordinal == parts[q[0]].ordinal && q[0].kind == kind
  {
  }

  /** A new part joins the queue. */
  lemma PartJoins(parts: map<Key, Part>, q: seq<Key>, kind: Kind, bound: nat, l: Lane, id: string)
    requires Tight(parts, q, kind, bound, l) && Key(kind, id) !in parts
    ensures Loose(parts[Key(kind, id) := Part(bound, "", false, false)], q + [Key(kind, id)], kind, bound + 1, l)
  {
    var k, q' := Key(kind, id), q + [Key(kind, id)];
    assert forall i | 0 <= i < |q| :: q'[i] == q[i];
    assert id !in l.started && id !in l.ended;
  }

  /** More text for a part. */
  lemma PartGrows(parts: map<Key, Part>, q: seq<Key>, kind: Kind, bound: nat, l: Lane, k: Key, delta: string)
    requires Tight(parts, q, kind, bound, l) && k in q && k in parts && !parts[k].done
    ensures var parts' := parts[k := parts[k].(text := parts[k].text + delta)];
            if parts[k].visible
            then l.open.Some? && l.open.value.ordinal == parts[k].ordinal &&
                 Tight(parts', q, kind, bound, l.(open := Some(l.open.value.(deltas := l.open.value.deltas + delta))))
            else Tight(parts', q, kind, bound, l)
  {
    var i :| 0 <= i < |q| && q[i] == k;
    assert parts[k].visible ==> i == 0;
  }

  /** A part is finished with its authoritative text. */
  lemma PartFinishes(parts: map<Key, Part>, q: seq<Key>, kind: Kind, bound: nat, l: Lane, k: Key, text: string)
    requires Loose(parts, q, kind, bound, l) && k in q && k in parts
    ensures Loose(parts[k := parts[k].(text := text, done := true)], q, kind, bound, l)
  {
  }

  // ---- the projector ----

  datatype ItemKind = AgentMessage | Thinking | Tool | Compaction | Unshown
  /** A native item; `text` is the prose of a message, or the joined summary or content of reasoning. */
  datatype Item = Item(id: string, kind: ItemKind, text: string)

  function QueueOf(queues: map<Kind, seq<Key>>, kind: Kind): seq<Key> { if kind in queues then queues[kind] else [] }

  ghost predicate SameBodies(parts: map<Key, Part>, parts': map<Key, Part>) {
    forall k | k in parts && k in parts' :: parts'[k].done == parts[k].done && parts'[k].text == parts[k].text
  }

  /** What the handling of one kind leaves alone. */
  ghost predicate KindOnly(parts0: map<Key, Part>, queues0: map<Kind, seq<Key>>, d0: Display,
                           parts: map<Key, Part>, queues: map<Kind, seq<Key>>, d: Display, kind: Kind) {
    && SameKind(parts0, parts, Other(kind)) && QueueOf(queues, Other(kind)) == QueueOf(queues0, Other(kind))
    && d == WithLane(d0, kind, LaneOf(d, kind)) && Frozen(parts0, parts) && parts.Keys == parts0.Keys
    && SameBodies(parts0, parts)
  }

  /** Only finished parts leave the queue, and none joins. */
  ghost predicate Waits(parts: map<Key, Part>, q: seq<Key>, q': seq<Key>) {
    (forall k | k in q && k in parts && !parts[k].done :: k in q') && (forall k | k in q' :: k in q)
  }

  lemma KindOnlyThen(p0: map<Key, Part>, q0: map<Kind, seq<Key>>, d0: Display, p1: map<Key, Part>,
                     q1: map<Kind, seq<Key>>,
                     d1: Display, p2: map<Key, Part>, q2: map<Kind, seq<Key>>, d2: Display, kind: Kind)
    requires KindOnly(p0, q0, d0, p1, q1, d1, kind) && KindOnly(p1, q1, d1, p2, q2, d2, kind)
    ensures KindOnly(p0, q0, d0, p2, q2, d2, kind)
  {
  }

  // ---- what a flush emits ----

  predicate Queued(parts: map<Key, Part>, q: seq<Key>) {
    (forall k | k in q :: k in parts) && (forall i, j | 0 <= i < j < |q| :: q[i] != q[j])
  }

  /** The started event of a part that is not shown yet, and the text it has buffered as one delta. */
  function Intro(k: Key, m: Message, p: Part): seq<Event> {
    if p.visible then []
    else if p.done || p.text == "" then [PartStarted(k, m, p.ordinal)]
    else [PartStarted(k, m, p.ordinal), PartDelta(k.kind, m, p.ordinal, p.text)]
  }

  /** Finished parts are shown in full, up to the first unfinished one, which is shown as far as it is. */
  function FlushLog(parts: map<Key, Part>, q: seq<Key>, m: Message): seq<Event>
    requires Queued(parts, q)
  {
    if q == [] then []
    else
      var p := parts[q[0]];
      if p.done then Intro(q[0], m, p) + [PartEnded(q[0], m, p.ordinal, p.text)] + FlushLog(parts, q[1..], m)
      else Intro(q[0], m, p)
  }

  function Unflushed(parts: map<Key, Part>, q: seq<Key>): seq<Key>
    requires Queued(parts, q)
  {
    if q == [] || !parts[q[0]].done then q else Unflushed(parts, q[1..])
  }

  /** Everything flushed, and the head that remains, is in view. */
  function Seen(parts: map<Key, Part>, q: seq<Key>): map<Key, Part>
    requires Queued(parts, q)
    decreases |q|
  {
    if q == [] then parts
    else
      var parts' := parts[q[0] := parts[q[0]].(visible := true)];
      if parts[q[0]].done then Seen(parts', q[1..]) else parts'
  }

  lemma {:induction false} FlushIgnores(parts: map<Key, Part>, parts': map<Key, Part>, q: seq<Key>, m: Message)
    requires Queued(parts, q) && Queued(parts', q) && forall k | k in q :: parts'[k] == parts[k]
    ensures FlushLog(parts', q, m) == FlushLog(parts, q, m) && Unflushed(parts', q) == Unflushed(parts, q)
  {
    if q != [] { FlushIgnores(parts, parts', q[1..], m); }
  }

  /** A head in view is ended, if it is finished. */
  lemma HeadLog(parts: map<Key, Part>, q: seq<Key>, m: Message)
    requires Queued(parts, q) && q != [] && parts[q[0]].visible
    ensures var p := parts[q[0]];
            && FlushLog(parts, q, m) ==
               (if p.done then [PartEnded(q[0], m, p.ordinal, p.text)] + FlushLog(parts, q[1..], m) else [])
            && Unflushed(parts, q) == (if p.done then Unflushed(parts, q[1..]) else q)
            && Queued(parts, q[1..]) && Seen(parts, q) == (if p.done then Seen(parts, q[1..]) else parts)
  {
    assert parts[q[0] := parts[q[0]].(visible := true)] == parts;
    assert Intro(q[0], m, parts[q[0]]) == [];
    var ended := [PartEnded(q[0], m, parts[q[0]].ordinal, parts[q[0]].text)];
    assert [] + ended == ended;
  }

  lemma Appends(log: seq<Event>, e: Event, rest: seq<Event>)
    ensures log + ([e] + rest) == (log + [e]) + rest
  {
  }

  lemma WaitsThen(p0: map<Key, Part>, p1: map<Key, Part>, q0: seq<Key>, q1: seq<Key>, q2: seq<Key>)
    requires Waits(p0, q0, q1) && Waits(p1, q1, q2) && SameBodies(p0, p1) && p0.Keys == p1.Keys
    ensures Waits(p1, q0, q2)
  {
  }

  lemma FlushNothing(parts: map<Key, Part>, m: Message)
    ensures Queued(parts, []) && FlushLog(parts, [], m) == [] && Unflushed(parts, []) == [] && Seen(parts, []) == parts
  {
  }

  lemma KindOnlySelf(parts: map<Key, Part>, queues: map<Kind, seq<Key>>, d: Display, kind: Kind)
    ensures KindOnly(parts, queues, d, parts, queues, d, kind)
  {
  }

  lemma KindOnlyBodies(p0: map<Key, Part>, q0: map<Kind, seq<Key>>, d0: Display, p1: map<Key, Part>,
                       q1: map<Kind, seq<Key>>, d1: Display, kind: Kind)
    requires KindOnly(p0, q0, d0, p1, q1, d1, kind)
    ensures SameBodies(p0, p1) && p0.Keys == p1.Keys
  {
  }

  lemma WaitsAll(parts: map<Key, Part>, q: seq<Key>)
    ensures Waits(parts, q, q)
  {
  }

  lemma WaitsTail(parts: map<Key, Part>, q: seq<Key>)
    requires q != [] && q[0] in parts && parts[q[0]].done
    ensures Waits(parts, q, q[1..])
  {
    TailOf(q);
  }

  lemma IntroShown(k: Key, m: Message, p: Part)
    ensures p.visible ==> Intro(k, m, p) == []
    ensures Intro(k, m, p.(visible := true)) == []
  {
  }

  /** A head that was just shown has nothing left to introduce. */
  lemma FlushShown(parts: map<Key, Part>, q: seq<Key>, m: Message)
    requires Queued(parts, q) && q != []
    ensures var parts' := parts[q[0] := parts[q[0]].(visible := true)];
            && Queued(parts', q) && Unflushed(parts', q) == Unflushed(parts, q) && Seen(parts', q) == Seen(parts, q)
            && FlushLog(parts, q, m) == Intro(q[0], m, parts[q[0]]) + FlushLog(parts', q, m)
            && (parts[q[0]].visible ==> parts' == parts && Intro(q[0], m, parts[q[0]]) == [])
  {
    hide Intro;
    var parts' := parts[q[0] := parts[q[0]].(visible := true)];
    assert q[0] !in q[1..] && parts'[q[0] := parts'[q[0]].(visible := true)] == parts';
    IntroShown(q[0], m, parts[q[0]]);
    FlushIgnores(parts, parts', q[1..], m);
    assert [] + FlushLog(parts', q, m) == FlushLog(parts', q, m);
  }

  /** An item of the raw response: a call, or the output of one. */
  datatype Raw = Raw(id: string, output: bool)

  /** A call that no output followed. */
  ghost predicate Unanswered(heard: seq<Raw>, id: string) {
    exists i :: 0 <= i < |heard| && heard[i] == Raw(id, false) && forall j | i < j < |heard| :: heard[j] != Raw(id, true)
  }

  ghost predicate Remembers(calls: map<string, bool>, heard: seq<Raw>) {
    && (forall id :: id in calls <==> Raw(id, false) in heard)
    && (forall id | id in calls :: !calls[id] <==> Unanswered(heard, id))
  }

  lemma RemembersNothing()
    ensures Remembers(map[], [])
  {
  }

  lemma UnansweredNext(heard: seq<Raw>, raw: Raw, id: string)
    ensures Unanswered(heard + [raw], id) <==> raw == Raw(id, false) || (Unanswered(heard, id) && raw != Raw(id, true))
  {
    var all := heard + [raw];
    assert all[|heard|] == raw && forall i | 0 <= i < |heard| :: all[i] == heard[i];
    if Unanswered(heard, id) && raw != Raw(id, true) {
      var i :| 0 <= i < |heard| && heard[i] == Raw(id, false) && forall j | i < j < |heard| :: heard[j] != Raw(id, true);
      assert all[i] == Raw(id, false) && forall j | i < j < |all| :: all[j] != Raw(id, true);
    }
    if Unanswered(all, id) && raw != Raw(id, false) {
      var i :| 0 <= i < |all| && all[i] == Raw(id, false) && forall j | i < j < |all| :: all[j] != Raw(id, true);
      assert heard[i] == Raw(id, false);
    }
    if raw == Raw(id, false) { assert all[|heard|] == Raw(id, false); }
  }

  lemma UnansweredCalls(heard: seq<Raw>, id: string)
    requires Unanswered(heard, id)
    ensures Raw(id, false) in heard
  {
  }

  lemma RemembersNext(calls: map<string, bool>, heard: seq<Raw>, id: string, output: bool)
    requires Remembers(calls, heard)
    ensures !output ==> Remembers(calls[id := false], heard + [Raw(id, false)])
    ensures output && id in calls ==> Remembers(calls[id := true], heard + [Raw(id, true)])
    ensures output && id !in calls ==> Remembers(calls, heard + [Raw(id, true)])
  {
    forall k ensures Unanswered(heard + [Raw(id, output)], k) <==>
      (Raw(id, output) == Raw(k, false) || (Unanswered(heard, k) && Raw(id, output) != Raw(k, true))) {
      UnansweredNext(heard, Raw(id, output), k);
    }
    forall k ensures Raw(k, false) in heard + [Raw(id, output)] <==> Raw(k, false) in heard || Raw(k, false) == Raw(id, output) {}
  }

  lemma AllAnswered(calls: map<string, bool>, heard: seq<Raw>)
    requires Remembers(calls, heard)
    ensures AllTrue(calls) <==> forall id :: !Unanswered(heard, id)
  {
    forall id | Unanswered(heard, id) ensures id in calls && !calls[id] { UnansweredCalls(heard, id); }
  }

  function Opening(open: bool, m: Message): seq<Event> { if open then [] else [StepStarted(m)] }
  function Ending(ends: bool, m: Message): seq<Event> { if ends then [StepEnded(m)] else [] }

  predicate AllTrue(calls: map<string, bool>) { forall id | id in calls :: calls[id] }

  function Unsettled(tools: map<string, bool>): set<string> { set id | id in tools && !tools[id] }

  lemma NoneUnsettled(tools: map<string, bool>)
    ensures |Unsettled(tools)| == 0 <==> AllTrue(tools)
  {
    if id :| id in tools && !tools[id] { assert id in Unsettled(tools); }
  }

  lemma NoTools()
    ensures |Unsettled(map[])| == 0
  {
    assert Unsettled(map[]) == {};
  }

  lemma UnsettledAfter(tools: map<string, bool>, id: string)
    ensures id !in tools ==> |Unsettled(tools[id := false])| == |Unsettled(tools)| + 1
    ensures id in tools && !tools[id] ==> |Unsettled(tools[id := true])| == |Unsettled(tools)| - 1
  {
    if id !in tools {
      assert Unsettled(tools[id := false]) == Unsettled(tools) + {id};
    } else if !tools[id] {
      assert Unsettled(tools) == Unsettled(tools[id := true]) + {id};
    }
  }

  /** The parts with one finished as given, and with all of a queue finished as they are. */
  function Final(parts: map<Key, Part>, k: Key, text: string): map<Key, Part>
    requires k in parts
  {
    parts[k := parts[k].(text := text, done := true)]
  }

  function AllFinal(parts: map<Key, Part>, q: seq<Key>): map<Key, Part> {
    map k | k in parts :: if k in q then parts[k].(done := true) else parts[k]
  }

  /** A part that may be new, and its queue. */
  function WithPart(parts: map<Key, Part>, k: Key, p: Part): map<Key, Part> { if k in parts then parts else parts[k := p] }
  function InLine(parts: map<Key, Part>, q: seq<Key>, k: Key): seq<Key> { if k in parts then q else q + [k] }

  /** The part of an item; without an id it is the one in view, if any. */
  function Target(queues: map<Kind, seq<Key>>, kind: Kind, id: string): Key {
    if id == "" && QueueOf(queues, kind) != [] then QueueOf(queues, kind)[0] else Key(kind, id)
  }

  /** A new part is shown at once if it is the first in line, and otherwise changes nothing in view. */
  lemma JoinLog(parts: map<Key, Part>, q: seq<Key>, k: Key, n: nat, m: Message)
    requires k !in parts && (q != [] ==> q[0] in parts && parts[q[0]].visible && !parts[q[0]].done)
    ensures var parts', q' := parts[k := Part(n, "", false, false)], q + [k];
            Queued(parts', q') ==>
              && FlushLog(parts', q', m) == (if q == [] then [PartStarted(k, m, n)] else [])
              && Unflushed(parts', q') == q'
              && Seen(parts', q') == parts[k := Part(n, "", false, q == [])]
  {
    var parts', q' := parts[k := Part(n, "", false, false)], q + [k];
    if q == [] {
      assert q' == [k];
    } else {
      assert q'[0] == q[0];
      assert parts'[q[0] := parts'[q[0]].(visible := true)] == parts';
    }
  }

  lemma FinalNext(parts: map<Key, Part>, q: seq<Key>, i: nat)
    requires i < |q| && q[i] in parts
    ensures var before := AllFinal(parts, q[..i]);
            AllFinal(parts, q[..i + 1]) == before[q[i] := before[q[i]].(done := true)]
  {
    assert q[..i + 1] == q[..i] + [q[i]];
  }

  /** A queue of the other kind is finished to the same effect. */
  lemma OthersFinal(parts: map<Key, Part>, parts': map<Key, Part>, q: seq<Key>, kind: Kind, m: Message)
    requires SameKind(parts, parts', kind) && Queued(parts, q) && forall k | k in q :: k.kind == kind
    ensures Queued(AllFinal(parts, q), q) && Queued(AllFinal(parts', q), q)
    ensures FlushLog(AllFinal(parts, q), q, m) == FlushLog(AllFinal(parts', q), q, m)
  {
    FlushIgnores(AllFinal(parts, q), AllFinal(parts', q), q, m);
  }

  lemma NothingFinal(parts: map<Key, Part>, m: Message)
    ensures Queued(AllFinal(parts, []), []) && FlushLog(AllFinal(parts, []), [], m) == []
  {
  }

  lemma StartShows(d: Display, k: Key, m: Message, p: Part)
    requires d.ok && Permits(d, PartStarted(k, m, p.ordinal))
    ensures var l := LaneOf(d, k.kind);
            var d1 := Show(d, PartStarted(k, m, p.ordinal));
            && d1 == WithLane(d, k.kind, Lane(Some(Shown(k.id, p.ordinal, "")), p.ordinal, l.started + {k.id}, l.ended))
            && Permits(d1, PartDelta(k.kind, m, p.ordinal, p.text))
            && Show(d1, PartDelta(k.kind, m, p.ordinal, p.text)) ==
               WithLane(d, k.kind, Lane(Some(Shown(k.id, p.ordinal, p.text)), p.ordinal, l.started + {k.id}, l.ended))
  {
    assert "" + p.text == p.text;
  }

  lemma StepShows(d: Display, m: Message)
    requires d.ok && d.step.None?
    ensures Permits(d, StepStarted(m))
    ensures Show(d, StepStarted(m)) ==
            d.(step := Some(m), streamed := false, text := d.text.(last := -1), reasoning := d.reasoning.(last := -1))
  {
  }

  class Projector {
    const turnID: string
    var response: nat
    var messageID: Message
    var stepOpen: bool
    var streamed: bool
    var compacting: bool
    var partOrdinal: nat
    var parts: map<Key, Part>
    var queues: map<Kind, seq<Key>>
    var tools: map<string, bool>
    var responseCalls: map<string, bool>
    var pendingTools: int
    /** What the sink accepted. */
    var log: seq<Event>
    /** The items of the raw response since the last step ended. */
    ghost var heard: seq<Raw>

    ghost predicate Header()
      reads this
    {
      var d := Watch(log);
      d.ok && d.step == (if stepOpen then Some(messageID) else None) && d.streamed == streamed && (streamed ==> stepOpen)
    }

    ghost predicate Rest(kind: Kind)
      reads this
    {
      Tight(parts, QueueOf(queues, kind), kind, partOrdinal, LaneOf(Watch(log), kind))
    }

    ghost predicate Valid()
      reads this
    {
      && Header() && Rest(Text) && Rest(Reasoning)
      && (!stepOpen ==> QueueOf(queues, Text) == [] && QueueOf(queues, Reasoning) == [])
      && pendingTools == |Unsettled(tools)| && Remembers(responseCalls, heard)
    }

    constructor (turnID: string)
      ensures Valid() && log == [] && heard == [] && this.turnID == turnID
    {
      this.turnID, response, messageID, stepOpen, streamed, compacting := turnID, 0, Native(""), false, false, false;
      partOrdinal, parts, queues, tools, responseCalls, pendingTools, log := 0, map[], map[], map[], map[], 0, [];
      heard := [];
      new;
      NoTools();
      RemembersNothing();
    }

    method Emit(e: Event)
      requires Header() && Permits(Watch(log), e)
      modifies this`log
      ensures Watch(log) == Show(old(Watch(log)), e) && Watch(log).ok && log == old(log) + [e]
    {
      WatchNext(log, e);
      log := log + [e];
    }

    method EnsureStep(native: string)
      requires Valid()
      modifies this`response, this`messageID, this`stepOpen, this`streamed, this`partOrdinal, this`log
      ensures Valid() && stepOpen && old(log) <= log
      ensures old(stepOpen) ==> messageID == old(messageID) && streamed == old(streamed)
      ensures old(stepOpen) ==> partOrdinal == old(partOrdinal) && response == old(response)
      ensures !old(stepOpen) ==> !streamed && partOrdinal == 0 && response == old(response) + 1
      ensures !old(stepOpen) ==> messageID == (if native != "" then Native(native) else Nth(turnID, response))
      ensures log == old(log) + Opening(old(stepOpen), messageID)
    {
      hide Valid, Tight;
      if stepOpen { return; }
      ClosedLanes();
      response := response + 1;
      StartStep(if native != "" then Native(native) else Nth(turnID, response));
    }

    lemma ClosedLanes()
      requires Valid() && !stepOpen
      ensures Header() && QueueOf(queues, Text) == [] && QueueOf(queues, Reasoning) == []
      ensures Tight(parts, [], Text, partOrdinal, Watch(log).text) && Tight(parts, [], Reasoning, partOrdinal, Watch(log).reasoning)
      ensures pendingTools == |Unsettled(tools)| && Remembers(responseCalls, heard)
    {
    }

    method StartStep(named: Message)
      requires Header() && !stepOpen && QueueOf(queues, Text) == [] && QueueOf(queues, Reasoning) == []
      requires Tight(parts, [], Text, partOrdinal, Watch(log).text) && Tight(parts, [], Reasoning, partOrdinal, Watch(log).reasoning)
      requires pendingTools == |Unsettled(tools)| && Remembers(responseCalls, heard)
      modifies this`messageID, this`stepOpen, this`streamed, this`partOrdinal, this`log
      ensures Valid() && stepOpen && !streamed && partOrdinal == 0 && messageID == named && log == old(log) + [StepStarted(named)]
    {
      hide Tight, Remembers, Unsettled, Show, Permits;
      FreshStep(parts, Text, partOrdinal, Watch(log).text);
      FreshStep(parts, Reasoning, partOrdinal, Watch(log).reasoning);
      StepShows(Watch(log), named);
      Emit(StepStarted(named));
      messageID := named;
      stepOpen, streamed, partOrdinal := true, false, 0;
    }

    ghost predicate OnlyKind(parts0: map<Key, Part>, queues0: map<Kind, seq<Key>>, d0: Display, kind: Kind)
      reads this
    {
      KindOnly(parts0, queues0, d0, parts, queues, Watch(log), kind)
    }

    ghost predicate Flushing(kind: Kind)
      reads this
    {
      && Header() && stepOpen && pendingTools == |Unsettled(tools)| && Remembers(responseCalls, heard)
      && Loose(parts, QueueOf(queues, kind), kind, partOrdinal, LaneOf(Watch(log), kind))
    }

    method StartHead(kind: Kind)
      requires Flushing(kind) && QueueOf(queues, kind) != [] && !parts[QueueOf(queues, kind)[0]].visible
      modifies this`parts, this`log
      ensures Flushing(kind) && old(log) <= log && OnlyKind(old(parts), old(queues), old(Watch(log)), kind)
      ensures var k := QueueOf(queues, kind)[0];
              && parts == old(parts)[k := old(parts)[k].(visible := true)]
              && log == old(log) + Intro(k, messageID, old(parts)[k])
    {
      hide Loose, Intro;
      QueuedParts(kind);
      var k := QueueOf(queues, kind)[0];
      var p := parts[k];
      HeadStarts(parts, QueueOf(queues, kind), kind, partOrdinal, LaneOf(Watch(log), kind));
      ShowHead(k, p);
      parts := parts[k := p.(visible := true)];
    }

    /** The started event, and the text buffered so far as one delta. */
    method ShowHead(k: Key, p: Part)
      requires Header() && Permits(Watch(log), PartStarted(k, messageID, p.ordinal)) && !p.visible
      modifies this`log
      ensures Header() && log == old(log) + Intro(k, messageID, p)
      ensures var d, l := old(Watch(log)), LaneOf(old(Watch(log)), k.kind);
              Watch(log) == WithLane(d, k.kind,
                Lane(Some(Shown(k.id, p.ordinal, if p.done then "" else p.text)), p.ordinal, l.started + {k.id}, l.ended))
    {
      StartShows(Watch(log), k, messageID, p);
      Emit(PartStarted(k, messageID, p.ordinal));
      if !p.done && p.text != "" {
        Emit(PartDelta(k.kind, messageID, p.ordinal, p.text));
      }
    }

    method EndHead(kind: Kind)
      requires Flushing(kind) && QueueOf(queues, kind) != []
      requires parts[QueueOf(queues, kind)[0]].visible && parts[QueueOf(queues, kind)[0]].done
      modifies this`queues, this`log
      ensures Flushing(kind) && old(log) <= log && OnlyKind(old(parts), old(queues), old(Watch(log)), kind)
      ensures QueueOf(queues, kind) == QueueOf(old(queues), kind)[1..]
      ensures var k := QueueOf(old(queues), kind)[0];
              log == old(log) + [PartEnded(k, messageID, parts[k].ordinal, parts[k].text)]
    {
      hide Loose;
      QueuedParts(kind);
      var q := QueueOf(queues, kind);
      HeadOpen(parts, q, kind, partOrdinal, LaneOf(Watch(log), kind));
      HeadEnds(parts, q, kind, partOrdinal, LaneOf(Watch(log), kind));
      Emit(PartEnded(q[0], messageID, parts[q[0]].ordinal, parts[q[0]].text));
      queues := queues[kind := q[1..]];
    }

    method FlushParts(kind: Kind)
      requires Flushing(kind)
      modifies this`parts, this`queues, this`log
      ensures Header() && Rest(kind) && old(log) <= log && OnlyKind(old(parts), old(queues), old(Watch(log)), kind)
      ensures Waits(parts, QueueOf(old(queues), kind), QueueOf(queues, kind))
      ensures Queued(old(parts), QueueOf(old(queues), kind))
      ensures log == old(log) + FlushLog(old(parts), QueueOf(old(queues), kind), messageID)
      ensures QueueOf(queues, kind) == Unflushed(old(parts), QueueOf(old(queues), kind))
      ensures parts == Seen(old(parts), QueueOf(old(queues), kind))
    {
      hide Loose, Tight, Header, KindOnly, Waits, FlushLog, Unflushed, Seen;
      ghost var q := QueueOf(queues, kind);
      QueuedParts(kind);
      WaitsAll(parts, q);
      KindOnlySelf(parts, queues, Watch(log), kind);
      ghost var all, left, seen := log + FlushLog(parts, q, messageID), Unflushed(parts, q), Seen(parts, q);
      while QueueOf(queues, kind) != []
        invariant Flushing(kind) && old(log) <= log && OnlyKind(old(parts), old(queues), old(Watch(log)), kind)
        invariant Waits(parts, QueueOf(old(queues), kind), QueueOf(queues, kind))
        invariant Queued(parts, QueueOf(queues, kind))
        invariant log + FlushLog(parts, QueueOf(queues, kind), messageID) == all
        invariant Unflushed(parts, QueueOf(queues, kind)) == left && Seen(parts, QueueOf(queues, kind)) == seen
        decreases |QueueOf(queues, kind)|
      {
        ghost var p0, q0, d0 := parts, queues, Watch(log);
        var more := FlushHead(kind);
        KindOnlyThen(old(parts), old(queues), old(Watch(log)), p0, q0, d0, parts, queues, Watch(log), kind);
        KindOnlyBodies(p0, q0, d0, parts, queues, Watch(log), kind);
        WaitsThen(p0, parts, q, QueueOf(q0, kind), QueueOf(queues, kind));
        if !more { return; }
      }
      FlushNothing(parts, messageID);
      EmptyRests(kind);
    }

    lemma EmptyRests(kind: Kind)
      requires Flushing(kind) && QueueOf(queues, kind) == []
      ensures Rest(kind)
    {
      hide Loose;
    }

    /** Shows the head, and takes it off the queue when it is finished. */
    method FlushHead(kind: Kind) returns (more: bool)
      requires Flushing(kind) && QueueOf(queues, kind) != []
      modifies this`parts, this`queues, this`log
      ensures Flushing(kind) && old(log) <= log && OnlyKind(old(parts), old(queues), old(Watch(log)), kind)
      ensures Waits(parts, QueueOf(old(queues), kind), QueueOf(queues, kind))
      ensures if more then |QueueOf(queues, kind)| < |QueueOf(old(queues), kind)| else Rest(kind)
      ensures Queued(old(parts), QueueOf(old(queues), kind)) && Queued(parts, QueueOf(queues, kind))
      ensures var q0, q := QueueOf(old(queues), kind), QueueOf(queues, kind);
              && old(log) + FlushLog(old(parts), q0, messageID) == (if more then log + FlushLog(parts, q, messageID) else log)
              && Unflushed(old(parts), q0) == (if more then Unflushed(parts, q) else q)
              && Seen(old(parts), q0) == (if more then Seen(parts, q) else parts)
    {
      hide Loose, Tight, Header, Intro, FlushLog, Unflushed, Seen, KindOnly, Waits, Watch, Queued, WithLane;
      ghost var q := QueueOf(queues, kind);
      ShowFirst(kind);
      ghost var log1 := log;
      QueuedParts(kind);
      HeadLog(parts, q, messageID);
      more := parts[QueueOf(queues, kind)[0]].done;
      if more {
        ghost var p0, q0, d0 := parts, queues, Watch(log);
        WaitsTail(parts, q);
        EndHead(kind);
        KindOnlyThen(old(parts), old(queues), old(Watch(log)), p0, q0, d0, parts, queues, Watch(log), kind);
        Appends(log1, PartEnded(q[0], messageID, parts[q[0]].ordinal, parts[q[0]].text), FlushLog(parts, q[1..], messageID));
      } else {
        WaitsAll(parts, q);
        HeadStays(kind);
      }
    }

    lemma HeadStays(kind: Kind)
      requires Flushing(kind) && QueueOf(queues, kind) != []
      requires QueueOf(queues, kind)[0] in parts
      requires parts[QueueOf(queues, kind)[0]].visible && !parts[QueueOf(queues, kind)[0]].done
      ensures Rest(kind)
    {
      hide Loose;
    }

    /** The head is in view afterwards, whether or not it was. */
    method ShowFirst(kind: Kind)
      requires Flushing(kind) && QueueOf(queues, kind) != []
      modifies this`parts, this`log
      ensures Flushing(kind) && old(log) <= log && OnlyKind(old(parts), old(queues), old(Watch(log)), kind)
      ensures var k := QueueOf(queues, kind)[0];
              k in old(parts) && parts == old(parts)[k := old(parts)[k].(visible := true)]
      ensures var q := QueueOf(queues, kind);
              && Queued(old(parts), q) && Queued(parts, q)
              && old(log) + FlushLog(old(parts), q, messageID) == log + FlushLog(parts, q, messageID)
              && Unflushed(old(parts), q) == Unflushed(parts, q) && Seen(old(parts), q) == Seen(parts, q)
    {
      hide Lined, Settled, HeadShown, Intro, FlushLog, Unflushed, Seen;
      QueuedParts(kind);
      FlushShown(parts, QueueOf(queues, kind), messageID);
      if !parts[QueueOf(queues, kind)[0]].visible { StartHead(kind); }
    }

    // ---- steps ----

    /** Ends the step unless a part of it is still shown or waiting. */
    method EndStep()
      requires Valid()
      modifies this`stepOpen, this`streamed, this`queues, this`tools, this`responseCalls, this`pendingTools, this`log, this`heard
      ensures Valid() && old(log) <= log
      ensures if old(stepOpen) && QueueOf(old(queues), Text) == [] && QueueOf(old(queues), Reasoning) == []
              then !stepOpen && !streamed && log == old(log) + [StepEnded(messageID)] && tools == map[] &&
                   responseCalls == map[] && pendingTools == 0 && heard == [] && Idle()
              else stepOpen == old(stepOpen) && log == old(log) && queues == old(queues) && tools == old(tools) &&
                   streamed == old(streamed) && responseCalls == old(responseCalls) && pendingTools == old(pendingTools) &&
                   heard == old(heard)
    {
      hide Tight, Unsettled, Remembers;
      if !stepOpen { return; }
      if |QueueOf(queues, Text)| > 0 || |QueueOf(queues, Reasoning)| > 0 { return; }
      FreshStep(parts, Text, partOrdinal, Watch(log).text);
      FreshStep(parts, Reasoning, partOrdinal, Watch(log).reasoning);
      Emit(StepEnded(messageID));
      ResetStep();
    }

    /** events.go:630-637 */
    method ResetStep()
      requires Watch(log).ok && Watch(log).step.None? && !Watch(log).streamed
      requires Tight(parts, [], Text, partOrdinal, Watch(log).text) && Tight(parts, [], Reasoning, partOrdinal, Watch(log).reasoning)
      modifies this`stepOpen, this`streamed, this`queues, this`tools, this`responseCalls, this`pendingTools, this`heard
      ensures Valid() && !stepOpen && !streamed && queues == map[] && tools == map[] && responseCalls == map[]
      ensures pendingTools == 0 && heard == [] && Idle()
    {
      hide Tight, Unsettled, Remembers, Watch;
      stepOpen, streamed := false, false;
      queues, tools, responseCalls, pendingTools, heard := map[], map[], map[], 0, [];
      NoTools();
      RemembersNothing();
    }

    /** No part is shown or waiting. */
    predicate Idle()
      reads this
    {
      QueueOf(queues, Text) == [] && QueueOf(queues, Reasoning) == []
    }

    method ResponseCallsSettled() returns (settled: bool)
      ensures settled <==> AllTrue(responseCalls)
    {
      var todo := responseCalls.Keys;
      while todo != {}
        invariant todo <= responseCalls.Keys && forall id | id in responseCalls && id !in todo :: responseCalls[id]
        decreases todo
      {
        var id :| id in todo;
        if !responseCalls[id] { return false; }
        todo := todo - {id};
      }
      settled := true;
    }

    /** Once the response has streamed and its tools and calls are settled, the step may end. */
    method EndSettled()
      requires Valid()
      modifies this`stepOpen, this`streamed, this`queues, this`tools, this`responseCalls, this`pendingTools, this`log, this`heard
      ensures Valid() && old(log) <= log
      ensures var ends := old(streamed) && AllTrue(old(tools)) && AllTrue(old(responseCalls)) && old(Idle());
              && log == old(log) + Ending(ends, messageID)
              && (ends ==> !stepOpen && !streamed && tools == map[] && responseCalls == map[] && pendingTools == 0 && heard == [] && Idle())
              && (!ends ==> stepOpen == old(stepOpen) && streamed == old(streamed) && queues == old(queues) &&
                            tools == old(tools) && responseCalls == old(responseCalls) &&
                            pendingTools == old(pendingTools) && heard == old(heard))
    {
      NoneUnsettled(tools);
      if streamed && pendingTools == 0 {
        var settled := ResponseCallsSettled();
        if settled { EndStep(); }
      }
    }

    // ---- parts ----

    /** The part of an item, introduced on first sight; an item without an id is the part now shown. */
    method ContentPart(kind: Kind, id: string) returns (k: Key)
      requires Valid() && stepOpen
      modifies this`partOrdinal, this`parts, this`queues, this`log
      ensures Valid() && old(log) <= log && Frozen(old(parts), parts)
      ensures k in parts && k.kind == kind && k == Target(old(queues), kind, id)
      ensures var q := QueueOf(old(queues), kind); k == if id == "" && q != [] then q[0] else Key(kind, id)
      ensures parts[k].done ==> k in old(parts) && old(parts)[k].done && k == Key(kind, id)
      ensures k in old(parts) ==> parts == old(parts) && log == old(log) && queues == old(queues) && partOrdinal == old(partOrdinal)
      ensures k !in old(parts) ==>
                var first := QueueOf(old(queues), kind) == [];
                && parts == old(parts)[k := Part(old(partOrdinal), "", false, first)] && partOrdinal == old(partOrdinal) + 1
                && log == old(log) + (if first then [PartStarted(k, messageID, old(partOrdinal))] else [])
                && QueueOf(queues, kind) == QueueOf(old(queues), kind) + [k]
                && QueueOf(queues, Other(kind)) == QueueOf(old(queues), Other(kind))
    {
      hide Loose, Unflushed, FlushLog, Seen;
      var q := QueueOf(queues, kind);
      if id == "" && |q| > 0 {
        HeadRests(kind);
        return q[0];
      }
      k := Key(kind, id);
      if k in parts { return; }
      if q != [] { HeadRests(kind); }
      JoinLog(parts, q, k, partOrdinal, messageID);
      Introduce(k);
      Flush(kind);
    }

    lemma HeadRests(kind: Kind)
      requires Rest(kind) && QueueOf(queues, kind) != []
      ensures var k := QueueOf(queues, kind)[0]; k in parts && k.kind == kind && parts[k].visible && !parts[k].done
    {
    }

    /** A new part with the next ordinal, at the end of its queue. */
    method Introduce(k: Key)
      requires Valid() && stepOpen && k !in parts
      modifies this`partOrdinal, this`parts, this`queues
      ensures Flushing(k.kind) && Rest(Other(k.kind)) && Frozen(old(parts), parts) && parts.Keys == old(parts).Keys + {k}
      ensures parts == old(parts)[k := Part(old(partOrdinal), "", false, false)] && partOrdinal == old(partOrdinal) + 1
      ensures QueueOf(queues, k.kind) == QueueOf(old(queues), k.kind) + [k]
      ensures QueueOf(queues, Other(k.kind)) == QueueOf(old(queues), Other(k.kind))
    {
      hide Tight, Loose;
      var q := QueueOf(queues, k.kind);
      PartJoins(parts, q, k.kind, partOrdinal, LaneOf(Watch(log), k.kind), k.id);
      var parts' := parts[k := Part(partOrdinal, "", false, false)];
      TightElsewhere(parts, parts', QueueOf(queues, Other(k.kind)), Other(k.kind), partOrdinal, partOrdinal + 1,
                     LaneOf(Watch(log), Other(k.kind)));
      parts := parts';
      partOrdinal := partOrdinal + 1;
      queues := queues[k.kind := q + [k]];
    }

    /** A flush of one kind with the other at rest. */
    method Flush(kind: Kind)
      requires Flushing(kind) && Rest(Other(kind))
      modifies this`parts, this`queues, this`log
      ensures Valid() && old(log) <= log && Frozen(old(parts), parts) && parts.Keys == old(parts).Keys
      ensures SameBodies(old(parts), parts) && Queued(old(parts), QueueOf(old(queues), kind))
      ensures log == old(log) + FlushLog(old(parts), QueueOf(old(queues), kind), messageID)
      ensures QueueOf(queues, kind) == Unflushed(old(parts), QueueOf(old(queues), kind))
      ensures QueueOf(queues, Other(kind)) == QueueOf(old(queues), Other(kind))
      ensures parts == Seen(old(parts), QueueOf(old(queues), kind))
    {
      hide Tight, Loose;
      ghost var l := LaneOf(Watch(log), Other(kind));
      FlushParts(kind);
      TightElsewhere(old(parts), parts, QueueOf(queues, Other(kind)), Other(kind), partOrdinal, partOrdinal, l);
    }

    /** A streamed delta: shown at once when its part is the one in view, buffered otherwise (events.go:252-270). */
    method ContentDelta(kind: Kind, id: string, delta: string)
      requires Valid()
      modifies this`response, this`messageID, this`stepOpen, this`streamed, this`partOrdinal, this`parts, this`queues, this`log
      ensures Valid() && old(log) <= log && Frozen(old(parts), parts)
      ensures old(Finished(kind, id)) ==> log == old(log) && parts == old(parts) && stepOpen == old(stepOpen)
      ensures !old(Finished(kind, id)) ==>
                var k := Target(old(queues), kind, id);
                var was := if k in old(parts) then old(parts)[k]
                           else Part(if old(stepOpen) then old(partOrdinal) else 0, "", false, QueueOf(old(queues), kind) == []);
                && stepOpen && (old(stepOpen) ==> messageID == old(messageID))
                && !was.done && parts == old(parts)[k := was.(text := was.text + delta)]
                && log == old(log) + Opening(old(stepOpen), messageID)
                          + (if k !in old(parts) && was.visible then [PartStarted(k, messageID, was.ordinal)] else [])
                          + (if was.visible then [PartDelta(kind, messageID, was.ordinal, delta)] else [])
    {
      hide Valid;
      ClosedIsIdle();
      if Key(kind, id) in parts && parts[Key(kind, id)].done { return; }
      EnsureStep(id);
      var k := ContentPart(kind, id);
      Grow(k, delta);
    }

    lemma ClosedIsIdle()
      requires Valid()
      ensures (!stepOpen ==> Idle()) && (streamed ==> stepOpen)
    {
    }

    method SetCompacting(on: bool)
      requires Valid()
      modifies this`compacting
      ensures Valid() && compacting == on
    {
      hide Tight;
      compacting := on;
    }

    predicate Finished(kind: Kind, id: string)
      reads this
    {
      Key(kind, id) in parts && parts[Key(kind, id)].done
    }

    /** A part that is unfinished waits in its queue. */
    lemma Waiting(k: Key)
      requires Valid() && k in parts && !parts[k].done
      ensures k in QueueOf(queues, k.kind) && stepOpen
    {
      assert Rest(k.kind);
      hide Lined, HeadShown;
    }

    method Grow(k: Key, delta: string)
      requires Valid() && stepOpen && k in parts && !parts[k].done
      modifies this`parts, this`log
      ensures Valid() && old(log) <= log && Frozen(old(parts), parts)
      ensures parts == old(parts)[k := old(parts)[k].(text := old(parts)[k].text + delta)]
      ensures log == old(log) + (if old(parts)[k].visible then [PartDelta(k.kind, messageID, old(parts)[k].ordinal, delta)] else [])
    {
      hide Tight;
      Waiting(k);
      var q, o := QueueOf(queues, k.kind), Other(k.kind);
      PartGrows(parts, q, k.kind, partOrdinal, LaneOf(Watch(log), k.kind), k, delta);
      var p := parts[k];
      var parts' := parts[k := p.(text := p.text + delta)];
      TightElsewhere(parts, parts', QueueOf(queues, o), o, partOrdinal, partOrdinal, LaneOf(Watch(log), o));
      if p.visible { Emit(PartDelta(k.kind, messageID, p.ordinal, delta)); }
      parts := parts';
    }

    /** The item's part is finished with its text, introduced first if it is new; its queue is flushed, and a step that
    is ready to end does so if nothing is left in line. */
    ghost predicate Completed(kind: Kind, id: string, text: string, parts0: map<Key, Part>, queues0: map<Kind, seq<Key>>,
                              ordinal: nat, ready: bool, begun: seq<Event>)
      reads this
    {
      var k, q0 := Target(queues0, kind, id), QueueOf(queues0, kind);
      var introduced := if k in parts0 || q0 != [] then [] else [PartStarted(k, messageID, ordinal)];
      var full := Final(WithPart(parts0, k, Part(ordinal, "", false, q0 == [])), k, text);
      var q := InLine(parts0, q0, k);
      && Queued(full, q) && parts == Seen(full, q) && QueueOf(queues, kind) == Unflushed(full, q)
      && QueueOf(queues, Other(kind)) == QueueOf(queues0, Other(kind))
      && var ends := ready && Idle();
         stepOpen == !ends && log == begun + introduced + FlushLog(full, q, messageID) + Ending(ends, messageID)
    }

    /** The authoritative text of an item (events.go:377-392). */
    method CompletePart(kind: Kind, id: string, text: string)
      requires Valid() && stepOpen
      modifies this
      ensures Valid() && old(log) <= log && Frozen(old(parts), parts)
      ensures compacting == old(compacting) && messageID == old(messageID)
      ensures heard == if stepOpen then old(heard) else []
      ensures id != "" && !old(Finished(kind, id)) ==> Finished(kind, id) && parts[Key(kind, id)].text == text
      ensures var k := Target(old(queues), kind, id);
              if k in old(parts) && old(parts)[k].done
              then parts == old(parts) && queues == old(queues) && log == old(log) && stepOpen
              else Completed(kind, id, text, old(parts), old(queues), old(partOrdinal),
                             old(streamed) && AllTrue(old(tools)) && AllTrue(old(responseCalls)), old(log))
    {
      hide Valid, AllTrue, FlushLog, Unflushed, Seen, Queued, Target, Final, WithPart, InLine;
      var more := FinishItem(kind, id, text);
      if more { EndSettled(); }
    }

    /** The same without the step's end; false when the part was finished before. */
    method FinishItem(kind: Kind, id: string, text: string) returns (more: bool)
      requires Valid() && stepOpen
      modifies this`partOrdinal, this`parts, this`queues, this`log
      ensures Valid() && old(log) <= log && Frozen(old(parts), parts)
      ensures id != "" && !old(Finished(kind, id)) ==> Finished(kind, id) && parts[Key(kind, id)].text == text
      ensures var k := Target(old(queues), kind, id);
              && more == !(k in old(parts) && old(parts)[k].done)
              && if more then Completed(kind, id, text, old(parts), old(queues), old(partOrdinal), false, old(log))
                 else parts == old(parts) && queues == old(queues) && log == old(log)
    {
      hide Valid, FlushLog, Unflushed, Seen, Queued;
      var k := ContentPart(kind, id);
      if parts[k].done { return false; }
      FinishPart(k, text);
      more := true;
    }

    method FinishPart(k: Key, text: string)
      requires Valid() && stepOpen && k in parts && !parts[k].done
      modifies this`parts, this`queues, this`log
      ensures Valid() && old(log) <= log && Frozen(old(parts), parts)
      ensures k in parts && parts[k].done && parts[k].text == text
      ensures var full, q := Final(old(parts), k, text), QueueOf(old(queues), k.kind);
              && Queued(full, q) && log == old(log) + FlushLog(full, q, messageID)
              && parts == Seen(full, q) && QueueOf(queues, k.kind) == Unflushed(full, q)
              && QueueOf(queues, Other(k.kind)) == QueueOf(old(queues), Other(k.kind))
    {
      hide Valid, Flushing, Rest, FlushLog, Unflushed, Seen;
      Finish(k, text);
      Flush(k.kind);
    }

    /** Marks a part finished; its queue is flushed next. */
    method Finish(k: Key, text: string)
      requires Valid() && stepOpen && k in parts && !parts[k].done
      modifies this`parts
      ensures Flushing(k.kind) && Rest(Other(k.kind)) && Frozen(old(parts), parts)
      ensures parts == old(parts)[k := old(parts)[k].(text := text, done := true)]
    {
      hide Tight, Loose;
      Waiting(k);
      var q, o := QueueOf(queues, k.kind), Other(k.kind);
      var parts' := parts[k := parts[k].(text := text, done := true)];
      TightIsLoose(k.kind);
      PartFinishes(parts, q, k.kind, partOrdinal, LaneOf(Watch(log), k.kind), k, text);
      TightElsewhere(parts, parts', QueueOf(queues, o), o, partOrdinal, partOrdinal, LaneOf(Watch(log), o));
      parts := parts';
    }

    lemma TightIsLoose(kind: Kind)
      requires Rest(kind)
      ensures Loose(parts, QueueOf(queues, kind), kind, partOrdinal, LaneOf(Watch(log), kind))
    {
    }

    // ---- items ----

    /** False when the provider opened a tool twice, which the caller only logs. */
    method StartTool(id: string) returns (ok: bool)
      requires Valid() && stepOpen
      modifies this`tools, this`pendingTools, this`log
      ensures Valid() && ok == (id !in old(tools))
      ensures if ok then tools == old(tools)[id := false] && pendingTools == old(pendingTools) + 1 &&
                         log == old(log) + [ToolCalled(id, messageID)]
              else tools == old(tools) && pendingTools == old(pendingTools) && log == old(log)
    {
      hide Tight;
      if id in tools { return false; }
      UnsettledAfter(tools, id);
      tools := tools[id := false];
      pendingTools := pendingTools + 1;
      Emit(ToolCalled(id, messageID));
      ok := true;
    }

    /** A delta or an earlier start already introduced the item's part. */
    predicate Known(item: Item)
      reads this
    {
      (item.kind.Thinking? && Key(Reasoning, item.id) in parts) || (item.kind.AgentMessage? && Key(Text, item.id) in parts)
    }

    /** The part is there, empty, and shown exactly when it is the first of its kind in line. */
    ghost predicate Introduced(parts0: map<Key, Part>, k: Key, ordinal: nat, first: bool, begun: seq<Event>)
      reads this
    {
      && parts == parts0[k := Part(ordinal, "", false, first)] && partOrdinal == ordinal + 1
      && log == begun + (if first then [PartStarted(k, messageID, ordinal)] else [])
    }

    /** events.go:140-174; false for an item without an id or a tool opened twice. */
    method ItemStarted(item: Item) returns (ok: bool)
      requires Valid()
      modifies this
      ensures Valid() && Frozen(old(parts), parts)
      ensures compacting == (old(compacting) || (item.id != "" && item.kind.Compaction?))
      ensures item.id == "" || item.kind.Compaction? || old(Known(item)) ==>
                ok == (item.id != "") && log == old(log) && parts == old(parts) && stepOpen == old(stepOpen) && heard == old(heard)
      ensures item.id != "" && !item.kind.Compaction? && !old(Known(item)) ==>
                var ends := old(streamed) && (item.kind.Tool? ==> AllTrue(old(responseCalls))) && old(Idle());
                var open := old(stepOpen) && !ends;
                var next := if open then old(partOrdinal) else 0;
                var begun := old(log) + Ending(ends, old(messageID)) + Opening(open, messageID);
                && stepOpen && (open ==> messageID == old(messageID)) && (!open ==> messageID == Native(item.id))
                && heard == (if ends then [] else old(heard))
                && match item.kind
                   case AgentMessage =>
                     ok && Introduced(old(parts), Key(Text, item.id), next, QueueOf(old(queues), Text) == [], begun)
                   case Thinking =>
                     ok && Introduced(old(parts), Key(Reasoning, item.id), next, QueueOf(old(queues), Reasoning) == [], begun)
                   case Tool =>
                     && parts == old(parts) && ok == (ends || item.id !in old(tools))
                     && log == begun + (if ok then [ToolCalled(item.id, messageID)] else [])
                     && (ok ==> item.id in tools && !tools[item.id])
                   case _ => ok && parts == old(parts) && log == begun
    {
      hide Valid, Introduced, AllTrue, Opening, Ending;
      if item.id == "" { return false; }
      if item.kind.Compaction? {
        SetCompacting(true);
        return true;
      }
      if Known(item) { return true; }
      NextStep(item);
      ok := true;
      match item.kind
      case AgentMessage => IntroducePart(Key(Text, item.id));
      case Thinking => IntroducePart(Key(Reasoning, item.id));
      case Tool => ok := StartTool(item.id);
      case _ =>
    }

    /** A streamed step makes way for the item, but not for a tool that it called itself. */
    method NextStep(item: Item)
      requires Valid() && item.id != ""
      modifies this
      ensures Valid() && stepOpen && parts == old(parts) && compacting == old(compacting)
      ensures var ends := old(streamed) && (item.kind.Tool? ==> AllTrue(old(responseCalls))) && old(Idle());
              var open := old(stepOpen) && !ends;
              && log == old(log) + Ending(ends, old(messageID)) + Opening(open, messageID)
              && (open ==> messageID == old(messageID)) && (!open ==> messageID == Native(item.id))
              && partOrdinal == (if open then old(partOrdinal) else 0)
              && tools == (if ends then map[] else old(tools)) && heard == (if ends then [] else old(heard))
      ensures QueueOf(queues, Text) == QueueOf(old(queues), Text) && QueueOf(queues, Reasoning) == QueueOf(old(queues), Reasoning)
    {
      hide Valid;
      ClosedIsIdle();
      if streamed {
        var settled := ResponseCallsSettled();
        if !item.kind.Tool? || settled { EndStep(); }
      }
      assert old(streamed) && (item.kind.Tool? ==> AllTrue(old(responseCalls))) && old(Idle()) ==> log == old(log) + Ending(true, old(messageID));
      EnsureStep(item.id);
    }

    method IntroducePart(k: Key)
      requires Valid() && stepOpen && k !in parts && k.id != ""
      modifies this`partOrdinal, this`parts, this`queues, this`log
      ensures Valid() && Frozen(old(parts), parts)
      ensures Introduced(old(parts), k, old(partOrdinal), QueueOf(old(queues), k.kind) == [], old(log))
    {
      hide Valid;
      var same := ContentPart(k.kind, k.id);
    }

    /** events.go:298-375; false for an item without an id or a tool completed twice. */
    method ItemCompleted(item: Item, failed: bool) returns (ok: bool)
      requires Valid()
      modifies this
      ensures Valid() && old(log) <= log && Frozen(old(parts), parts)
      ensures compacting == (old(compacting) && !(item.id != "" && item.kind.Compaction?))
      ensures item.id == "" || item.kind.Compaction? || old(Finished(Text, item.id)) || old(Finished(Reasoning, item.id)) ==>
                ok == (item.id != "") && log == old(log) && parts == old(parts) && heard == old(heard)
      ensures item.id != "" && !item.kind.Compaction? && !old(Finished(Text, item.id)) && !old(Finished(Reasoning, item.id)) ==>
                heard == if stepOpen then old(heard) else []
      ensures item.id != "" && !item.kind.Compaction? && !old(Finished(Text, item.id)) && !old(Finished(Reasoning, item.id)) ==>
                var begun := old(log) + Opening(old(stepOpen), messageID);
                var next := if old(stepOpen) then old(partOrdinal) else 0;
                var ready := old(streamed) && AllTrue(old(responseCalls));
                match item.kind
                case AgentMessage =>
                  ok && Completed(Text, item.id, item.text, old(parts), old(queues), next, ready && AllTrue(old(tools)), begun)
                case Thinking =>
                  && ok
                  && (if item.text != "" || Key(Reasoning, item.id) in old(parts)
                      then Completed(Reasoning, item.id, item.text, old(parts), old(queues), next, ready && AllTrue(old(tools)), begun)
                      else parts == old(parts) && stepOpen && log == begun)
                case Tool =>
                  var calls := if item.id in old(tools) then [] else [ToolCalled(item.id, messageID)];
                  var ends := ready && AllTrue(old(tools)[item.id := true]) && old(Idle());
                  && ok == (item.id in old(tools) ==> !old(tools)[item.id]) && parts == old(parts)
                  && log == (if ok then begun + calls + [ToolSettled(item.id, messageID)] + Ending(ends, messageID) else begun)
                case _ => ok && parts == old(parts) && stepOpen && log == begun
    {
      hide Valid, Completed, AllTrue;
      ClosedIsIdle();
      if item.id == "" { return false; }
      ok := true;
      if item.kind.Compaction? {
        SetCompacting(false);
        return;
      }
      if Finished(Text, item.id) || Finished(Reasoning, item.id) { return; }
      EnsureStep(item.id);
      match item.kind
      case AgentMessage => CompletePart(Text, item.id, item.text);
      case Thinking =>
        if item.text != "" || Key(Reasoning, item.id) in parts { CompletePart(Reasoning, item.id, item.text); }
      case Tool => ok := CompleteTool(item.id);
      case _ =>
    }

    method CompleteTool(id: string) returns (ok: bool)
      requires Valid() && stepOpen
      modifies this
      ensures Valid() && parts == old(parts) && compacting == old(compacting)
      ensures ok == (id in old(tools) ==> !old(tools)[id])
      ensures messageID == old(messageID) && heard == if stepOpen then old(heard) else []
      ensures !ok ==> log == old(log) && stepOpen && tools == old(tools)
      ensures ok ==>
                var calls := if id in old(tools) then [] else [ToolCalled(id, messageID)];
                var ends := old(streamed) && AllTrue(old(tools)[id := true]) && AllTrue(old(responseCalls)) && old(Idle());
                && log == old(log) + calls + [ToolSettled(id, messageID)] + Ending(ends, messageID)
                && (if ends then !stepOpen else stepOpen && tools == old(tools)[id := true])
    {
      hide Valid;
      if id !in tools { ok := StartTool(id); }
      if tools[id] { return false; }
      assert old(tools)[id := false][id := true] == old(tools)[id := true];
      SettleTool(id);
      EndSettled();
      ok := true;
    }

    method SettleTool(id: string)
      requires Valid() && stepOpen && id in tools && !tools[id]
      modifies this`tools, this`pendingTools, this`log
      ensures Valid() && tools == old(tools)[id := true]
      ensures log == old(log) + [ToolSettled(id, messageID)]
    {
      hide Tight;
      UnsettledAfter(tools, id);
      tools := tools[id := true];
      pendingTools := pendingTools - 1;
      Emit(ToolSettled(id, messageID));
    }

    // ---- responses and the end of the turn ----

    /** A call or the output of a call in the raw response; without an id it is neither (events.go:431-452). */
    method RawResponseItemCompleted(id: string, output: bool)
      requires Valid()
      modifies this
      ensures Valid() && parts == old(parts) && compacting == old(compacting) && messageID == old(messageID)
      ensures old(compacting) || id == "" ==>
                log == old(log) && responseCalls == old(responseCalls) && stepOpen == old(stepOpen) && streamed == old(streamed) &&
                heard == old(heard)
      ensures !old(compacting) && id != "" && !output ==>
                && log == old(log) && stepOpen == old(stepOpen) && streamed == old(streamed)
                && responseCalls.Keys == old(responseCalls).Keys + {id} && !responseCalls[id]
                && (forall k | k in old(responseCalls) && k != id :: responseCalls[k] == old(responseCalls)[k])
                && heard == old(heard) + [Raw(id, false)]
      ensures !old(compacting) && id != "" && output ==>
                var ends := old(streamed) && AllTrue(old(tools)) && old(Idle())
                            && (forall k | k in old(responseCalls) && k != id :: old(responseCalls)[k]);
                && log == old(log) + Ending(ends, messageID)
                && (if ends then !stepOpen && responseCalls == map[] && heard == []
                    else
                      && stepOpen == old(stepOpen) && streamed == old(streamed) && heard == old(heard) + [Raw(id, true)]
                      && responseCalls.Keys == old(responseCalls).Keys && (id in responseCalls ==> responseCalls[id])
                      && (forall k | k in responseCalls && k != id :: responseCalls[k] == old(responseCalls)[k]))
    {
      hide Valid, Unanswered;
      if compacting || id == "" { return; }
      NoteRaw(id, output);
      EndSettled();
    }

    method NoteRaw(id: string, output: bool)
      requires Valid()
      modifies this`responseCalls, this`heard
      ensures Valid() && heard == old(heard) + [Raw(id, output)]
      ensures !output ==>
                && responseCalls.Keys == old(responseCalls).Keys + {id} && !responseCalls[id]
                && (forall k | k in old(responseCalls) && k != id :: responseCalls[k] == old(responseCalls)[k])
      ensures output ==>
                && responseCalls.Keys == old(responseCalls).Keys && (id in responseCalls ==> responseCalls[id])
                && (forall k | k in responseCalls && k != id :: responseCalls[k] == old(responseCalls)[k])
    {
      hide Tight, Remembers, Unsettled;
      RemembersNext(responseCalls, heard, id, output);
      heard := heard + [Raw(id, output)];
      if output {
        if id in responseCalls { responseCalls := responseCalls[id := true]; }
      } else {
        responseCalls := responseCalls[id := false];
      }
    }

    /** events.go:454-488; false for a second completion or one without an id. */
    method RawResponseCompleted(id: string) returns (ok: bool)
      requires Valid()
      modifies this
      ensures Valid() && parts == old(parts) && compacting == old(compacting)
      ensures ok == (old(compacting) || (!old(streamed) && id != ""))
      ensures old(compacting) || !ok ==> log == old(log) && stepOpen == old(stepOpen) && streamed == old(streamed) && heard == old(heard)
      ensures !old(compacting) && ok ==>
                var m := if old(stepOpen) then old(messageID) else Native(id);
                var ends := AllTrue(old(tools)) && (forall c :: !Unanswered(old(heard), c)) && old(Idle());
                && log == old(log) + Opening(old(stepOpen), m) + [StepStreamed(m)] + Ending(ends, m)
                && stepOpen == streamed == !ends && heard == (if ends then [] else old(heard))
    {
      hide Valid, Unanswered;
      CallsRemembered();
      if compacting { return true; }
      if streamed || id == "" { return false; }
      ClosedIsIdle();
      EnsureStep(id);
      MarkStreamed();
      EndSettled();
      ok := true;
    }

    lemma CallsRemembered()
      requires Valid()
      ensures AllTrue(responseCalls) <==> forall c :: !Unanswered(heard, c)
    {
      hide Unanswered, Rest, Header;
      AllAnswered(responseCalls, heard);
    }

    method MarkStreamed()
      requires Valid() && stepOpen && !streamed
      modifies this`streamed, this`log
      ensures Valid() && streamed && log == old(log) + [StepStreamed(messageID)]
    {
      hide Tight;
      Emit(StepStreamed(messageID));
      streamed := true;
    }

    /** Everything still waiting is finished and shown, and the step ends unless tools are unsettled
    (events.go:523-543). */
    method TurnCompleted() returns (ok: bool)
      requires Valid()
      modifies this
      ensures Valid() && old(log) <= log && Frozen(old(parts), parts)
      ensures ok <==> (old(stepOpen) ==> AllTrue(old(tools)))
      ensures ok ==> !stepOpen && forall k | k in parts :: parts[k].done
      ensures QueueOf(queues, Text) == [] && QueueOf(queues, Reasoning) == []
      ensures heard == if old(stepOpen) && ok then [] else old(heard)
      ensures forall k | k in old(parts) :: k in parts && parts[k].text == old(parts)[k].text
      ensures var t, r := QueueOf(old(queues), Text), QueueOf(old(queues), Reasoning);
              var allT, allR := AllFinal(old(parts), t), AllFinal(old(parts), r);
              && Queued(allT, t) && Queued(allR, r)
              && log == old(log) + FlushLog(allT, t, messageID) + FlushLog(allR, r, messageID)
                        + Ending(ok && old(stepOpen), messageID)
    {
      hide Valid, FlushLog, Queued, AllTrue, Unsettled;
      ghost var t, r := QueueOf(queues, Text), QueueOf(queues, Reasoning);
      ClosedIsIdle();
      Counts();
      if stepOpen {
        FinishAll(Text);
        OthersFinal(old(parts), parts, r, Reasoning, messageID);
        FinishAll(Reasoning);
        Counts();
        if pendingTools != 0 {
          return false;
        }
        EndStep();
      } else {
        NothingFinal(parts, messageID);
      }
      ok := true;
      AllDone();
    }

    lemma Counts()
      requires Valid()
      ensures pendingTools == 0 <==> AllTrue(tools)
    {
      NoneUnsettled(tools);
    }

    lemma AllDone()
      requires Valid() && QueueOf(queues, Text) == [] && QueueOf(queues, Reasoning) == []
      ensures forall k | k in parts :: parts[k].done
    {
      forall k | k in parts ensures parts[k].done { if !parts[k].done { Waiting(k); } }
    }

    /** Marks every waiting part of a kind finished, with the text it has, and flushes. */
    method FinishAll(kind: Kind)
      requires Valid() && stepOpen
      modifies this`parts, this`queues, this`log
      ensures Valid() && old(log) <= log && Frozen(old(parts), parts) && SameKind(old(parts), parts, Other(kind))
      ensures QueueOf(queues, kind) == [] && QueueOf(queues, Other(kind)) == old(QueueOf(queues, Other(kind)))
      ensures forall k | k in old(parts) :: k in parts && parts[k].text == old(parts)[k].text
      ensures var q := QueueOf(old(queues), kind);
              var all := AllFinal(old(parts), q);
              && Queued(all, q) && Queued(old(parts), QueueOf(old(queues), Other(kind)))
              && (forall k | k in QueueOf(old(queues), Other(kind)) :: k.kind == Other(kind))
              && log == old(log) + FlushLog(all, q, messageID)
    {
      hide Valid, Flushing, FlushLog, Rest;
      OtherQueue(kind);
      MarkAll(kind);
      QueuedParts(kind);
      FlushDone(kind);
    }

    lemma OtherQueue(kind: Kind)
      requires Valid() && stepOpen
      ensures Queued(parts, QueueOf(queues, Other(kind)))
      ensures forall k | k in QueueOf(queues, Other(kind)) :: k.kind == Other(kind)
      ensures Flushing(kind) && Rest(Other(kind))
    {
      hide Lined, Settled, HeadShown;
      TightIsLoose(kind);
      TightIsLoose(Other(kind));
      QueuedParts(Other(kind));
    }

    method MarkAll(kind: Kind)
      requires Flushing(kind) && Rest(Other(kind))
      modifies this`parts
      ensures Flushing(kind) && Rest(Other(kind)) && Frozen(old(parts), parts)
      ensures parts == AllFinal(old(parts), QueueOf(queues, kind)) && SameKind(old(parts), parts, Other(kind))
      ensures forall k | k in QueueOf(queues, kind) :: k in parts && parts[k].done
    {
      hide Tight, Loose, Remembers, Unsettled, Watch;
      var q, o := QueueOf(queues, kind), Other(kind);
      QueuedParts(kind);
      for i := 0 to |q|
        invariant Flushing(kind) && Rest(o)
        invariant Frozen(old(parts), parts) && parts == AllFinal(old(parts), q[..i])
      {
        var parts' := parts[q[i] := parts[q[i]].(done := true)];
        PartFinishes(parts, q, kind, partOrdinal, LaneOf(Watch(log), kind), q[i], parts[q[i]].text);
        TightElsewhere(parts, parts', QueueOf(queues, o), o, partOrdinal, partOrdinal, LaneOf(Watch(log), o));
        FinalNext(old(parts), q, i);
        parts := parts';
      }
      assert q[..|q|] == q;
    }

    lemma QueuedParts(kind: Kind)
      requires Flushing(kind)
      ensures forall k | k in QueueOf(queues, kind) :: k in parts && k.kind == kind
      ensures Queued(parts, QueueOf(queues, kind))
    {
    }

    /** A flush of finished parts empties the queue. */
    method FlushDone(kind: Kind)
      requires Flushing(kind) && Rest(Other(kind)) && forall k | k in QueueOf(queues, kind) :: k in parts && parts[k].done
      modifies this`parts, this`queues, this`log
      ensures Valid() && old(log) <= log && Frozen(old(parts), parts)
      ensures QueueOf(queues, kind) == [] && QueueOf(queues, Other(kind)) == old(QueueOf(queues, Other(kind)))
      ensures SameKind(old(parts), parts, Other(kind)) && Queued(old(parts), QueueOf(old(queues), kind))
      ensures SameBodies(old(parts), parts) && parts.Keys == old(parts).Keys
      ensures log == old(log) + FlushLog(old(parts), QueueOf(old(queues), kind), messageID)
    {
      hide Tight, Loose, FlushLog, Unflushed, Seen;
      ghost var l := LaneOf(Watch(log), Other(kind));
      FlushParts(kind);
      TightElsewhere(old(parts), parts, QueueOf(queues, Other(kind)), Other(kind), partOrdinal, partOrdinal, l);
      EmptyWhenDone(kind);
    }

    lemma EmptyWhenDone(kind: Kind)
      requires Rest(kind) && forall k | k in QueueOf(queues, kind) && k in parts :: parts[k].done
      ensures QueueOf(queues, kind) == []
    {
    }

    /** A retry of the app-server keeps the step open (events.go:560-568). */
    method RetryNoticed()
      requires Valid()
      modifies this`response, this`messageID, this`stepOpen, this`streamed, this`partOrdinal, this`log
      ensures Valid() && stepOpen && log == old(log) + Opening(old(stepOpen), messageID) + [RetryScheduled(messageID)]
    {
      hide Valid;
      EnsureStep("");
      Retry();
    }

    method Retry()
      requires Valid() && stepOpen
      modifies this`log
      ensures Valid() && log == old(log) + [RetryScheduled(messageID)]
    {
      hide Tight;
      Emit(RetryScheduled(messageID));
    }

    // ---- what the transcript shows ----

    /** The head of each queue is the one part shown, its deltas are exactly its text so far, and the rest are hidden. */
    lemma HeadIsShown(kind: Kind)
      requires Valid() && QueueOf(queues, kind) != []
      ensures var k, open := QueueOf(queues, kind)[0], LaneOf(Watch(log), kind).open;
              k in parts && open == Some(Shown(k.id, parts[k].ordinal, parts[k].text))
      ensures forall i | 0 < i < |QueueOf(queues, kind)| :: QueueOf(queues, kind)[i] in parts && !parts[QueueOf(queues, kind)[i]].visible
    {
      assert Rest(kind);
    }

    /** A part that ended did so with the text it was finished with, and keeps it. */
    lemma EndedIsFinished(kind: Kind, id: string)
      requires Valid() && id in LaneOf(Watch(log), kind).ended
      ensures Finished(kind, id) && LaneOf(Watch(log), kind).ended[id] == parts[Key(kind, id)].text
    {
      assert Rest(kind);
      assert Key(kind, id).id == id;
    }
  }

  /** No step ends with a part open. */
  lemma NoStepEndsOpen(log: seq<Event>, n: nat)
    requires Watch(log).ok && n < |log| && log[n].StepEnded?
    ensures Watch(log[..n]).text.open.None? && Watch(log[..n]).reasoning.open.None?
  {
    OkBefore(log, n);
  }

  ghost predicate EndsBetween(log: seq<Event>, k: Key, i: nat, j: nat) {
    exists e :: i < e < j && e < |log| && log[e].PartEnded? && log[e].key == k
  }

  lemma {:induction false} AfterStart(log: seq<Event>, i: nat, j: nat)
    requires Watch(log).ok && i < j <= |log| && log[i].PartStarted?
    requires forall s | i < s < j :: !log[s].StepStarted?
    ensures var k, l := log[i].key, LaneOf(Watch(log[..j]), log[i].key.kind);
            && log[i].ordinal <= l.last && k.id in l.started
            && (EndsBetween(log, k, i, j) || (l.open.Some? && l.open.value.id == k.id && l.open.value.ordinal == log[i].ordinal))
    decreases j
  {
    hide Watch;
    var m := j - 1;
    OkBefore(log, m);
    WatchNext(log[..m], log[m]);
    assert log[..m] + [log[m]] == log[..j];
    if i < m {
      AfterStart(log, i, m);
      if EndsBetween(log, log[i].key, i, m) {
        assert EndsBetween(log, log[i].key, i, j);
      } else if log[m].PartEnded? && log[m].key == log[i].key {
        assert EndsBetween(log, log[i].key, i, j);
      }
    }
  }

  /** Within a step, a part of a kind starts only after the one before it ended, with a larger ordinal. */
  lemma PartsInOrder(log: seq<Event>, i: nat, j: nat)
    requires Watch(log).ok && i < j < |log| && log[i].PartStarted? && log[j].PartStarted? && log[i].key.kind == log[j].key.kind
    requires forall s | i < s < j :: !log[s].StepStarted?
    ensures log[i].ordinal < log[j].ordinal && log[i].key != log[j].key && EndsBetween(log, log[i].key, i, j)
  {
    AfterStart(log, i, j);
    OkBefore(log, j);
  }
}
