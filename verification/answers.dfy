/** The two selectors of a turn's final answer: the reader of the live stream (codex/codex.go:661-740) and the scan
of native history (codex/recovery.go:315-331). */
module Answers {
  import opened Recovery

  datatype Message = Message(text: string, final: bool)
  datatype Event = Started(id: string) | Finished(id: string, message: Message)

  /** What the reader keeps: the text chosen so far, the order in which its item was first seen and whether it is an
  explicit final answer, and the orders of all items seen. */
  datatype Reader = Reader(text: string, order: nat, final: bool, orders: map<string, nat>)

  function Open(seed: Message): Reader { Reader(seed.text, 0, seed.final, map[]) }

  function See(r: Reader, id: string): Reader {
    if id in r.orders then r else r.(orders := r.orders[id := |r.orders| + 1])
  }

  predicate Prefers(r: Reader, final: bool, order: nat) {
    (final && !r.final) || (final == r.final && order >= r.order)
  }

  function Take(r: Reader, e: Event): Reader {
    var r' := See(r, e.id);
    if e.Finished? && Prefers(r', e.message.final, r'.orders[e.id])
    then r'.(text := e.message.text, order := r'.orders[e.id], final := e.message.final) else r'
  }

  function Read(seed: Message, events: seq<Event>): Reader {
    if events == [] then Open(seed) else Take(Read(seed, events[..|events| - 1]), events[|events| - 1])
  }

  /** The loop of readTurnFrom, over the agent messages of its turn. */
  method ReadTurnFrom(seed: string, seedFinal: bool, events: seq<Event>) returns (final: string, finalPhase: bool)
    ensures final == Read(Message(seed, seedFinal), events).text && finalPhase == Read(Message(seed, seedFinal), events).final
  {
    var textOrder: map<string, nat> := map[];
    var finalOrder := 0;
    final, finalPhase := seed, seedFinal;
    for i := 0 to |events|
      invariant Reader(final, finalOrder, finalPhase, textOrder) == Read(Message(seed, seedFinal), events[..i])
    {
      assert events[..i + 1][..i] == events[..i];
      var e := events[i];
      if e.id !in textOrder { textOrder := textOrder[e.id := |textOrder| + 1]; }
      match e
      case Started(_) =>
      case Finished(id, message) =>
        var order := textOrder[id];
        if (message.final && !finalPhase) || (message.final == finalPhase && order >= finalOrder) {
          final, finalOrder, finalPhase := message.text, order, message.final;
        }
    }
    assert events[..|events|] == events;
  }

  // ---- the reference: history in first-seen order ----

  /** The ids of the stream in the order they were first seen. */
  function Seen(events: seq<Event>): seq<string> {
    if events == [] then []
    else
      var ids, id := Seen(events[..|events| - 1]), events[|events| - 1].id;
      if id in ids then ids else ids + [id]
  }

  function Done(events: seq<Event>): map<string, Message> {
    if events == [] then map[]
    else
      var done, e := Done(events[..|events| - 1]), events[|events| - 1];
      if e.Finished? then done[e.id := e.message] else done
  }

  /** Each item completes at most once. */
  predicate CompletesOnce(events: seq<Event>) {
    forall i, j | 0 <= i < j < |events| :: events[i].Finished? && events[j].Finished? ==> events[i].id != events[j].id
  }

  /** The completed items among `ids`, in their order. */
  function Listed(ids: seq<string>, done: map<string, Message>): seq<Message> {
    if ids == [] then []
    else
      var last := ids[|ids| - 1];
      Listed(ids[..|ids| - 1], done) + (if last in done then [done[last]] else [])
  }

  function History(events: seq<Event>): seq<Message> { Listed(Seen(events), Done(events)) }

  /** The history scan from a given beginning. */
  function Scan(seed: Message, ms: seq<Message>): Message {
    if ms == [] then seed
    else
      var best, m := Scan(seed, ms[..|ms| - 1]), ms[|ms| - 1];
      if m.final || !best.final then m else best
  }

  function Messages(items: seq<Item>): seq<Message> {
    if items == [] then []
    else
      var last := items[|items| - 1];
      Messages(items[..|items| - 1]) + (if last.AgentMessage? then [Message(last.text, last.final)] else [])
  }

  const NOTHING := Message("", false)

  lemma {:induction false} NativeIsScan(items: seq<Item>)
    ensures NativeAnswer(items) == (Scan(NOTHING, Messages(items)).text, Scan(NOTHING, Messages(items)).final)
  {
    if items != [] {
      var init, last := items[..|items| - 1], items[|items| - 1];
      NativeIsScan(init);
      if last.AgentMessage? { ScanNext(NOTHING, Messages(init), Message(last.text, last.final)); }
      assert Messages(init) + [] == Messages(init);
    }
  }

  lemma ScanNext(seed: Message, ms: seq<Message>, m: Message)
    ensures Scan(seed, ms + [m]) == if m.final || !Scan(seed, ms).final then m else Scan(seed, ms)
  {
    assert (ms + [m])[..|ms|] == ms;
  }

  lemma {:induction false} ScanSplit(seed: Message, a: seq<Message>, b: seq<Message>)
    ensures Scan(seed, a + b) == Scan(Scan(seed, a), b)
  {
    if b == [] {
      assert a + b == a;
    } else {
      assert a + b == (a + b[..|b| - 1]) + [b[|b| - 1]];
      ScanSplit(seed, a, b[..|b| - 1]);
      ScanNext(seed, a + b[..|b| - 1], b[|b| - 1]);
    }
  }

  // ---- both pick the same item ----

  /** `order` and `final` name the winner among the completed items of `ids`, counted from one; zero is the seed. */
  ghost predicate Wins(ids: seq<string>, done: map<string, Message>, seed: Message, order: nat, final: bool,
                       text: string) {
    && order <= |ids|
    && (if order == 0 then final == seed.final && text == seed.text
        else ids[order - 1] in done && done[ids[order - 1]] == Message(text, final))
    && (forall i | 0 <= i < |ids| && ids[i] in done && done[ids[i]].final :: final && i < order)
    && (!final ==> forall i | 0 <= i < |ids| && ids[i] in done :: i < order)
    && (seed.final ==> final)
  }

  lemma WinsNext(ids: seq<string>, done: map<string, Message>, seed: Message, order: nat, best: Message, last: string)
    requires Wins(ids, done, seed, order, best.final, best.text)
    ensures last !in done ==> Wins(ids + [last], done, seed, order, best.final, best.text)
    ensures last in done && (done[last].final || !best.final) ==>
              Wins(ids + [last], done, seed, |ids| + 1, done[last].final, done[last].text)
    ensures last in done && !done[last].final && best.final ==> Wins(ids + [last], done, seed, order, best.final, best.text)
  {
    var all := ids + [last];
    assert forall i | 0 <= i < |ids| :: all[i] == ids[i];
  }

  lemma {:induction false} ScanWins(ids: seq<string>, done: map<string, Message>, seed: Message) returns (order: nat)
    ensures Wins(ids, done, seed, order, Scan(seed, Listed(ids, done)).final, Scan(seed, Listed(ids, done)).text)
  {
    if ids == [] {
      order := 0;
    } else {
      var init, last := ids[..|ids| - 1], ids[|ids| - 1];
      order := ScanWins(init, done, seed);
      assert ids == init + [last];
      var best := Scan(seed, Listed(init, done));
      WinsNext(init, done, seed, order, best, last);
      if last in done {
        ScanNext(seed, Listed(init, done), done[last]);
        if done[last].final || !best.final { order := |ids|; }
      } else {
        assert Listed(ids, done) == Listed(init, done);
      }
    }
  }

  lemma WinnerIsUnique(ids: seq<string>, done: map<string, Message>, seed: Message,
                       o: nat, f: bool, t: string, o': nat, f': bool, t': string)
    requires Wins(ids, done, seed, o, f, t) && Wins(ids, done, seed, o', f', t')
    ensures f == f' && t == t'
  {
    if o > 0 { assert ids[o - 1] in done; }
    if o' > 0 { assert ids[o' - 1] in done; }
  }

  ghost predicate Tracks(r: Reader, ids: seq<string>) {
    && |r.orders| == |ids| && (forall id :: id in r.orders <==> id in ids)
    && (forall i | 0 <= i < |ids| :: r.orders[ids[i]] == i + 1)
    && (forall i, j | 0 <= i < j < |ids| :: ids[i] != ids[j])
  }

  lemma DoneMembers(events: seq<Event>, id: string)
    ensures id in Done(events) <==> exists i :: 0 <= i < |events| && events[i].Finished? && events[i].id == id
  {
    if events != [] {
      var init := events[..|events| - 1];
      DoneMembers(init, id);
      if id in Done(init) {
        var i :| 0 <= i < |init| && init[i].Finished? && init[i].id == id;
        assert events[i].Finished?;
      }
      if i :| 0 <= i < |events| && events[i].Finished? && events[i].id == id {
        assert i < |init| ==> init[i].Finished?;
      }
    }
  }

  lemma {:induction false} SeenMembers(events: seq<Event>, id: string)
    ensures id in Done(events) ==> id in Seen(events)
  {
    if events != [] { SeenMembers(events[..|events| - 1], id); }
  }

  /** What holds of the reader after each event. */
  ghost predicate Reads(seed: Message, events: seq<Event>) {
    var r := Read(seed, events);
    Tracks(r, Seen(events)) && Wins(Seen(events), Done(events), seed, r.order, r.final, r.text)
  }

  lemma {:induction false} ReaderWins(seed: Message, events: seq<Event>)
    requires CompletesOnce(events)
    ensures Reads(seed, events)
  {
    hide Reads, Done;
    if events == [] {
      ReadsNothing(seed);
    } else {
      var init, e := events[..|events| - 1], events[|events| - 1];
      ReaderWins(seed, init);
      if e.Finished? { NotDoneYet(events); }
      EventWins(seed, init, e);
      assert init + [e] == events;
    }
  }

  lemma ReadsNothing(seed: Message)
    ensures Reads(seed, [])
  {
  }

  lemma Nexts(seed: Message, init: seq<Event>, e: Event)
    ensures Read(seed, init + [e]) == Take(Read(seed, init), e)
    ensures Seen(init + [e]) == if e.id in Seen(init) then Seen(init) else Seen(init) + [e.id]
    ensures Done(init + [e]) == if e.Finished? then Done(init)[e.id := e.message] else Done(init)
  {
    assert (init + [e])[..|init|] == init;
  }

  lemma EventWins(seed: Message, init: seq<Event>, e: Event)
    requires Reads(seed, init) && (e.Finished? ==> e.id !in Done(init))
    ensures Reads(seed, init + [e])
  {
    hide Wins, Tracks, Take, See, Read, Seen, Done;
    var r, ids := Read(seed, init), Seen(init);
    var ids' := if e.id in ids then ids else ids + [e.id];
    Nexts(seed, init, e);
    SeeTracks(r, ids, e.id);
    forall k | k in Done(init) ensures k in ids { SeenMembers(init, k); }
    SeeWins(ids, Done(init), seed, r, e.id, ids');
    TakesSeen(r, e);
    TracksOrders(See(r, e.id), Take(r, e), ids');
    if e.Finished? { TakeWins(ids', Done(init), seed, See(r, e.id), e); }
  }

  lemma TracksOrders(r: Reader, r': Reader, ids: seq<string>)
    requires Tracks(r, ids) && r'.orders == r.orders
    ensures Tracks(r', ids)
  {
  }

  lemma NotDoneYet(events: seq<Event>)
    requires events != [] && CompletesOnce(events) && events[|events| - 1].Finished?
    ensures events[|events| - 1].id !in Done(events[..|events| - 1])
  {
    var init, e := events[..|events| - 1], events[|events| - 1];
    DoneMembers(init, e.id);
    assert forall i | 0 <= i < |init| :: init[i] == events[i];
  }

  lemma TakesSeen(r: Reader, e: Event)
    ensures Take(See(r, e.id), e) == Take(r, e)
    ensures Take(r, e).orders == See(r, e.id).orders
    ensures !e.Finished? ==> Take(r, e) == See(r, e.id)
    ensures var r' := See(r, e.id); r'.order == r.order && r'.final == r.final && r'.text == r.text
  {
  }

  lemma SeeTracks(r: Reader, ids: seq<string>, id: string)
    requires Tracks(r, ids)
    ensures Tracks(See(r, id), if id in ids then ids else ids + [id])
  {
  }

  lemma SeeWins(ids: seq<string>, done: map<string, Message>, seed: Message, r: Reader, id: string, ids': seq<string>)
    requires Wins(ids, done, seed, r.order, r.final, r.text) && (forall k | k in done :: k in ids)
    requires ids' == if id in ids then ids else ids + [id]
    ensures Wins(ids', done, seed, r.order, r.final, r.text)
  {
  }

  lemma TakeWins(ids: seq<string>, done: map<string, Message>, seed: Message, r: Reader, e: Event)
    requires Tracks(r, ids) && e.id in ids && e.Finished? && e.id !in done
    requires Wins(ids, done, seed, r.order, r.final, r.text)
    ensures var r' := Take(r, e); Wins(ids, done[e.id := e.message], seed, r'.order, r'.final, r'.text)
  {
    var i :| 0 <= i < |ids| && ids[i] == e.id;
    assert See(r, e.id) == r && r.orders[e.id] == i + 1;
  }

  // ---- the promises ----

  /** The stream's answer is what the history scan finds when history lists the completed items in the order they
  were first seen, whatever order they completed in. */
  lemma StreamAgreesWithHistory(events: seq<Event>, items: seq<Item>)
    requires CompletesOnce(events) && Messages(items) == History(events)
    ensures (Read(NOTHING, events).text, Read(NOTHING, events).final) == NativeAnswer(items)
  {
    SeededStreamAgrees([], events, items);
  }

  /** The same for a reader that recovery seeds with the answer of the history it has seen so far. */
  lemma SeededStreamAgrees(before: seq<Item>, events: seq<Event>, after: seq<Item>)
    requires CompletesOnce(events) && Messages(after) == Messages(before) + History(events)
    ensures var (text, final) := NativeAnswer(before);
            var r := Read(Message(text, final), events);
            (r.text, r.final) == NativeAnswer(after)
  {
    NativeIsScan(before);
    NativeIsScan(after);
    var seed := Scan(NOTHING, Messages(before));
    ScanSplit(NOTHING, Messages(before), History(events));
    ReaderWins(seed, events);
    var r, best := Read(seed, events), Scan(seed, History(events));
    var order := ScanWins(Seen(events), Done(events), seed);
    WinnerIsUnique(Seen(events), Done(events), seed, r.order, r.final, r.text, order, best.final, best.text);
  }

  /** Two streams that first see the same items in the same order, and complete the same ones, have one answer. */
  lemma CompletionOrderIsFree(seed: Message, a: seq<Event>, b: seq<Event>)
    requires CompletesOnce(a) && CompletesOnce(b) && Seen(a) == Seen(b) && Done(a) == Done(b)
    ensures Read(seed, a).text == Read(seed, b).text && Read(seed, a).final == Read(seed, b).final
  {
    ReaderWins(seed, a);
    ReaderWins(seed, b);
    var r, s := Read(seed, a), Read(seed, b);
    WinnerIsUnique(Seen(a), Done(a), seed, r.order, r.final, r.text, s.order, s.final, s.text);
  }

  /** The answer itself: the latest-seen completed final answer, else the latest-seen completed item. */
  lemma AnswerIsLatest(events: seq<Event>, i: nat)
    requires CompletesOnce(events) && i < |Seen(events)| && Seen(events)[i] in Done(events)
    requires forall k | i < k < |Seen(events)| && Seen(events)[k] in Done(events) ::
               Done(events)[Seen(events)[i]].final && !Done(events)[Seen(events)[k]].final
    requires Done(events)[Seen(events)[i]].final || forall k | 0 <= k < i && Seen(events)[k] in Done(events) ::
               !Done(events)[Seen(events)[k]].final
    ensures Read(NOTHING, events).text == Done(events)[Seen(events)[i]].text
  {
    ReaderWins(NOTHING, events);
    var r, m := Read(NOTHING, events), Done(events)[Seen(events)[i]];
    WinnerIsUnique(Seen(events), Done(events), NOTHING, r.order, r.final, r.text, i + 1, m.final, m.text);
  }
}
